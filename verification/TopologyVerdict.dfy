/** Exactly when the order of declarations does not matter to the recursion check: the classes
    that some order makes dependent, the classes that every order does, and the verdict between. */
module TopologyVerdict {
  import opened Graphs
  import opened TopologyModel
  import opened TopologyTyping
  import opened TopologyRecursion
  import opened TopologyOrder
  import opened TopologyReordering

  // ------------------------------------------------------------ the verdict of a dependent set

  lemma MoreEdges(a: Edges, b: Edges)
    requires a <= b && Cyclic(a)
    ensures Cyclic(b)
  {
    var x :| OnCycle(a, x);
    var y :| (x, y) in a && Reaches(a, y, x);
    var p :| PathBetween(a, p, y, x);
    assert PathBetween(b, p, y, x);
    assert OnCycle(b, x);
  }

  lemma MoreSchemas(t: Topology, few: set<Name>, many: set<Name>)
    requires few <= many
    ensures SchemasWith(t, few) <= SchemasWith(t, many)
  {
    assert DependentBase(t, few) <= DependentBase(t, many);
    forall x | DependsOn(t, few, x) ensures DependsOn(t, many, x) {
      var b :| b in DependentBase(t, few) && Reaches(EdgesOf(t), x, b);
    }
  }

  lemma MoreIsCyclic(t: Topology, few: set<Name>, many: set<Name>)
    requires few <= many && CyclicWith(t, few)
    ensures CyclicWith(t, many)
  {
    MoreSchemas(t, few, many);
    MoreEdges(Induced(EdgesOf(t), SchemasWith(t, few)), Induced(EdgesOf(t), SchemasWith(t, many)));
  }

  /** The verdict of an order is that of the classes it makes dependent. */
  lemma VerdictOf(t: Topology, u: Topology, b: Types)
    requires SameDeclarations(t, u) && IsDerivation(u, b)
    ensures Recursive(u) <==> CyclicWith(t, Dependents(b.sources))
  {
    RecursionOf(u, b);
    var dependent := Dependents(b.sources);
    assert EdgesOf(t) == EdgesOf(u) && Declared(t) == Declared(u);
    assert DependentBase(t, dependent) == DependentBase(u, dependent);
    assert SchemasWith(t, dependent) == SchemasWith(u, dependent);
  }

  // ------------------------------------------------------------ what an order can reach

  /** Births that hand on what their parent depends on. */
  function Passing(t: Topology): Edges {
    set a, c | a in t.actors && c in a.children && a.roleParent.None? && c.actor !in Anchors(t) + {ROOT} :: (a.name, c.actor)
  }

  /** Classes typed without any parameter before their parents are. */
  function FreeSeeds(t: Topology): set<Name> {
    Anchors(t) + set a, c | a in t.actors && c in a.children && a.roleParent.Some? && c.actor != ROOT :: c.actor
  }

  /** Classes that may depend on the root. */
  ghost function May(t: Topology): set<Name> {
    set x | x in Declared(t) && ReachedFrom(Passing(t), {ROOT}, x)
  }

  ghost function Free(t: Topology): set<Name> {
    set x | x in Declared(t) && ReachedFrom(Passing(t), FreeSeeds(t), x)
  }

  /** Classes that nothing can free from it. */
  ghost function Must(t: Topology): set<Name> {
    Declared(t) - Free(t)
  }

  /** What the rounds keep when the root is a parameter. */
  ghost predicate Bounded(t: Topology, found: Types) {
    && Anchors(t) + {ROOT} <= found.sources.Keys
    && forall x :: x in found.sources ==>
      ReachedFrom(Passing(t), if found.sources[x] == {} then FreeSeeds(t) else {ROOT}, x)
  }

  lemma BirthStaysBounded(t: Topology, a: ActorClass, c: Child, found: Types)
    requires Bounded(t, found) && a in t.actors && c in a.children && Uniform(a)
    ensures Bounded(t, BirthTyped(a, c, found))
  {
    if c.actor !in found.sources && (Nominal(a, c) || a.name in found.sources) {
      if Nominal(a, c) {
        assert c.actor in FreeSeeds(t);
        Stay(Passing(t), c.actor);
      } else {
        var seeds := if found.sources[a.name] == {} then FreeSeeds(t) else {ROOT};
        var s :| s in seeds && Reaches(Passing(t), s, a.name);
        assert (a.name, c.actor) in Passing(t);
        Extend(Passing(t), s, a.name, c.actor);
      }
    }
  }

  lemma SeedIsBounded(t: Topology)
    requires ROOT !in Anchors(t)
    ensures Bounded(t, SeedTyped(t))
  {
    forall x | x in SeedTyped(t).sources
      ensures ReachedFrom(Passing(t), if SeedTyped(t).sources[x] == {} then FreeSeeds(t) else {ROOT}, x)
    {
      Stay(Passing(t), x);
    }
  }

  lemma DerivationIsBounded(t: Topology, found: Types)
    requires ROOT !in Anchors(t) && t.members == [] && AllUniform(t) && IsDerivation(t, found)
    ensures Bounded(t, found)
  {
    var inv: Types -> bool := (e: Types) => Bounded(t, e);
    forall a, c, e | a in t.actors && c in a.children && inv(e) ensures inv(BirthTyped(a, c, e)) {
      BirthStaysBounded(t, a, c, e);
    }
    SeedIsBounded(t);
    DerivationKeeps(t, inv, found);
  }

  /** Every order makes all of `Must` dependent and nothing outside `May`. */
  lemma DependentsAreBetween(t: Topology, found: Types)
    requires Connected(t) && ROOT !in Anchors(t) && t.members == [] && AllUniform(t) && IsDerivation(t, found)
    ensures Must(t) <= Dependents(found.sources) <= May(t)
  {
    DerivationIsBounded(t, found);
    DerivationIsTotal(t, found);
  }

  // ------------------------------------------------------------ both bounds are reached

  ghost predicate Ready(sources: map<Name, set<Parameter>>, start: Types, p: seq<ActorClass>, v: set<Parameter>, a: ActorClass) {
    Gives(sources, a) == v && (a.roleParent.Some? || a.name in FrontTyped(p, start).sources)
  }

  /** No class that hands on `v` is left to put in front. */
  ghost predicate Saturated(t: Topology, sources: map<Name, set<Parameter>>, start: Types, p: seq<ActorClass>, v: set<Parameter>) {
    forall a :: a in t.actors && Ready(sources, start, p, v, a) ==> a in p
  }

  function Classes(p: seq<ActorClass>): set<ActorClass> {
    set a | a in p
  }

  lemma {:induction false} Saturate(t: Topology, sources: map<Name, set<Parameter>>, start: Types, p: seq<ActorClass>, v: set<Parameter>)
    returns (q: seq<ActorClass>)
    requires AllUniform(t) && Fronts(t, sources, start, p, v)
    ensures Fronts(t, sources, start, q, v) && Saturated(t, sources, start, q, v)
    decreases Classes(t.actors) - Classes(p)
  {
    q := p;
    if !Saturated(t, sources, start, p, v) {
      var a :| a in t.actors && Ready(sources, start, p, v, a) && a !in p;
      FrontsOne(t, sources, start, p, a);
      assert a in Classes(t.actors) - Classes(p) && a in Classes(p + [a]);
      q := Saturate(t, sources, start, p + [a], v);
    }
  }

  /** Births hand on `v` to classes with `v`. */
  ghost predicate PassesOn(t: Topology, sources: map<Name, set<Parameter>>, v: set<Parameter>) {
    && Declared(t) <= sources.Keys
    && forall x, y :: (x, y) in Passing(t) && x in sources && sources[x] == v ==> y in sources && sources[y] == v
  }

  /** What a saturated front types with `v`. */
  ghost function Won(sources: map<Name, set<Parameter>>, start: Types, p: seq<ActorClass>, v: set<Parameter>): set<Name> {
    set x | x in FrontTyped(p, start).sources && x in sources && sources[x] == v
  }

  lemma WonIsClosed(t: Topology, sources: map<Name, set<Parameter>>, start: Types, p: seq<ActorClass>, v: set<Parameter>)
    requires PassesOn(t, sources, v) && Fronts(t, sources, start, p, v) && Saturated(t, sources, start, p, v)
    ensures Closed(Passing(t), Won(sources, start, p, v))
  {
    forall x, y | (x, y) in Passing(t) && x in Won(sources, start, p, v) ensures y in Won(sources, start, p, v) {
      var a, c :| a in t.actors && c in a.children && a.roleParent.None? && (a.name, c.actor) == (x, y);
      assert Ready(sources, start, p, v, a);
      SpentTypes(p, start, a, c);
    }
  }

  /** In this order everything the front wins has `v`. */
  lemma WonIsDerived(t: Topology, sources: map<Name, set<Parameter>>, p: seq<ActorClass>, v: set<Parameter>, b: Types, x: Name)
    requires Connected(t) && AllUniform(t) && Matches(sources, SeedTyped(t)) && Fronts(t, sources, SeedTyped(t), p, v)
    requires x in Won(sources, SeedTyped(t), p, v) && Reorders(t, Reordered(t, p)) && IsDerivation(Reordered(t, p), b)
    ensures x in b.sources && b.sources[x] == v
  {
    var u := Reordered(t, p);
    SameSeed(t, u);
    if x in SeedTyped(t).sources {
      DerivationExtends(u, b, 0);
    } else {
      FrontDecides(t, u, sources, SeedTyped(t), p, v, x, 0, b);
    }
  }

  /** Some order gives `v` to everything that the seeds reach. */
  lemma Attain(t: Topology, sources: map<Name, set<Parameter>>, v: set<Parameter>, seeds: set<Name>) returns (u: Topology, b: Types)
    requires Connected(t) && AllUniform(t) && Matches(sources, SeedTyped(t)) && PassesOn(t, sources, v)
    requires forall p :: Fronts(t, sources, SeedTyped(t), p, v) && Saturated(t, sources, SeedTyped(t), p, v) ==>
      seeds <= Won(sources, SeedTyped(t), p, v)
    ensures Reorders(t, u) && Connected(u) && IsDerivation(u, b)
    ensures forall x :: ReachedFrom(Passing(t), seeds, x) ==> x in b.sources && b.sources[x] == v
  {
    var start := SeedTyped(t);
    var p := Saturate(t, sources, start, [], v);
    WonIsClosed(t, sources, start, p, v);
    ReorderedReorders(t, p);
    u := Reordered(t, p);
    b := DerivationExists(u);
    forall x | ReachedFrom(Passing(t), seeds, x) ensures x in b.sources && b.sources[x] == v {
      ReachedIsTyped(Passing(t), seeds, Won(sources, start, p, v), x);
      WonIsDerived(t, sources, p, v, b, x);
    }
  }

  /** `v` for these classes, `w` for the others. */
  function Marked(t: Topology, inside: set<Name>, v: set<Parameter>, w: set<Parameter>): map<Name, set<Parameter>> {
    map x | x in Declared(t) :: if x in inside then v else w
  }

  lemma PassingIsDeclared(t: Topology, x: Name, y: Name)
    requires Connected(t) && (x, y) in Passing(t)
    ensures x in Declared(t) && y in Declared(t) && y !in Anchors(t) + {ROOT}
  {
    assert (x, y) in EdgesOf(t);
  }

  lemma MarkedPasses(t: Topology, seeds: set<Name>, v: set<Parameter>, w: set<Parameter>)
    requires Connected(t) && v != w
    ensures var inside := set x | x in Declared(t) && ReachedFrom(Passing(t), seeds, x);
      PassesOn(t, Marked(t, inside, v, w), v)
  {
    var inside := set x | x in Declared(t) && ReachedFrom(Passing(t), seeds, x);
    forall x, y | (x, y) in Passing(t) && x in inside ensures y in inside {
      PassingIsDeclared(t, x, y);
      var s :| s in seeds && Reaches(Passing(t), s, x);
      Extend(Passing(t), s, x, y);
    }
    forall x, y | (x, y) in Passing(t) ensures x in Declared(t) {
      PassingIsDeclared(t, x, y);
    }
  }

  /** Births never lead to an anchor or to the root. */
  lemma NotReached(t: Topology, seeds: set<Name>, x: Name)
    requires Connected(t) && x in Anchors(t) + {ROOT} && ReachedFrom(Passing(t), seeds, x)
    ensures x in seeds
  {
    var s :| s in seeds && Reaches(Passing(t), s, x);
    var p :| PathBetween(Passing(t), p, s, x);
    if |p| > 1 {
      assert (p[|p| - 2], p[|p| - 1]) in Passing(t);
      PassingIsDeclared(t, p[|p| - 2], x);
    }
  }

  lemma AnchorsAreDeclared(t: Topology)
    requires Connected(t)
    ensures Anchors(t) + {ROOT} <= Declared(t)
  {
  }

  lemma MayMatches(t: Topology)
    requires Connected(t) && ROOT !in Anchors(t)
    ensures ROOT in May(t) && Matches(Marked(t, May(t), {ExecutedRoot}, {}), SeedTyped(t))
  {
    AnchorsAreDeclared(t);
    Stay(Passing(t), ROOT);
    forall x | x in Anchors(t) ensures x !in May(t) {
      if x in May(t) {
        NotReached(t, {ROOT}, x);
      }
    }
  }

  /** Some order makes all of `May` dependent. */
  lemma MayIsReached(t: Topology) returns (u: Topology, b: Types)
    requires Connected(t) && AllUniform(t) && ROOT !in Anchors(t)
    ensures Reorders(t, u) && Connected(u) && IsDerivation(u, b) && May(t) <= Dependents(b.sources)
  {
    var sources := Marked(t, May(t), {ExecutedRoot}, {});
    MayMatches(t);
    MarkedPasses(t, {ROOT}, {ExecutedRoot}, {});
    forall p ensures ROOT in Won(sources, SeedTyped(t), p, {ExecutedRoot}) {
      FrontKeepsStart(p, SeedTyped(t), ROOT);
    }
    u, b := Attain(t, sources, {ExecutedRoot}, {ROOT});
  }

  lemma {:induction false} FrontKeepsStart(p: seq<ActorClass>, start: Types, x: Name)
    requires x in start.sources
    ensures x in FrontTyped(p, start).sources
  {
    if p != [] {
      FrontKeepsStart(p[..|p| - 1], start, x);
      ChildrenGrow(p[|p| - 1], |p[|p| - 1].children|, FrontTyped(p[..|p| - 1], start));
    }
  }

  lemma FreeMatches(t: Topology)
    requires Connected(t) && ROOT !in Anchors(t)
    ensures FreeSeeds(t) <= Free(t) && Matches(Marked(t, Free(t), {}, {ExecutedRoot}), SeedTyped(t))
  {
    SeedsAreDeclared(t);
    forall a, c | a in t.actors && c in a.children ensures c.actor in Declared(t) {
      assert (a.name, c.actor) in EdgesOf(t);
    }
    forall x | x in FreeSeeds(t) ensures x in Free(t) {
      Stay(Passing(t), x);
    }
    if ROOT in Free(t) {
      NotReached(t, FreeSeeds(t), ROOT);
    }
  }

  lemma FreeSeedsAreWon(t: Topology, sources: map<Name, set<Parameter>>, p: seq<ActorClass>)
    requires Fronts(t, sources, SeedTyped(t), p, {}) && Saturated(t, sources, SeedTyped(t), p, {})
    requires forall x :: x in FreeSeeds(t) ==> x in sources && sources[x] == {}
    ensures FreeSeeds(t) <= Won(sources, SeedTyped(t), p, {})
  {
    forall x | x in FreeSeeds(t) ensures x in FrontTyped(p, SeedTyped(t)).sources {
      if x in Anchors(t) {
        FrontKeepsStart(p, SeedTyped(t), x);
      } else {
        var a, c :| a in t.actors && c in a.children && a.roleParent.Some? && c.actor == x;
        assert Ready(sources, SeedTyped(t), p, {}, a);
        SpentTypes(p, SeedTyped(t), a, c);
      }
    }
  }

  /** Some order makes nothing but `Must` dependent. */
  lemma MustIsReached(t: Topology) returns (u: Topology, b: Types)
    requires Connected(t) && AllUniform(t) && ROOT !in Anchors(t)
    ensures Reorders(t, u) && Connected(u) && IsDerivation(u, b) && Dependents(b.sources) <= Must(t)
  {
    var sources := Marked(t, Free(t), {}, {ExecutedRoot});
    FreeMatches(t);
    MarkedPasses(t, FreeSeeds(t), {}, {ExecutedRoot});
    forall p | Fronts(t, sources, SeedTyped(t), p, {}) && Saturated(t, sources, SeedTyped(t), p, {})
      ensures FreeSeeds(t) <= Won(sources, SeedTyped(t), p, {})
    {
      FreeSeedsAreWon(t, sources, p);
    }
    u, b := Attain(t, sources, {}, FreeSeeds(t));
    ReordersIsConnected(t, u);
    DerivationIsTotal(u, b);
  }

  // ------------------------------------------------------------ a typed root

  /** With a typed root exactly the classes that wait for the cold members depend on one. */
  ghost predicate Divided(t: Topology, found: Types) {
    && Anchors(t) + {ROOT} <= found.sources.Keys && Staged(t, found)
    && forall x :: x in found.sources ==> (Early(t, x) <==> found.sources[x] == {})
  }

  lemma BirthStaysDivided(t: Topology, a: ActorClass, c: Child, found: Types)
    requires Divided(t, found) && a in t.actors && c in a.children
    ensures Divided(t, BirthTyped(a, c, found))
  {
    if c.actor !in found.sources && (Nominal(a, c) || a.name in found.sources) {
      if Nominal(a, c) || Early(t, a.name) {
        BirthIsEarly(t, a, c);
      }
    }
  }

  lemma MembersStayDivided(t: Topology, found: Types)
    requires Divided(t, found) && PassTyped(t, |t.actors|, found) == found
    ensures Divided(t, MembersTyped(t, |t.members|, found))
  {
    var next := MembersTyped(t, |t.members|, found);
    NewMembers(t, |t.members|, found);
    MembersExtend(t, |t.members|, found);
    MembersKeepStage(t, found);
    forall x | x in next.sources && x !in found.sources ensures !Early(t, x) {
      UntypedIsCold(t, found, x);
    }
  }

  lemma DerivationIsDivided(t: Topology, found: Types)
    requires ROOT in Anchors(t) && IsDerivation(t, found)
    ensures Divided(t, found)
  {
    var inv: Types -> bool := (e: Types) => Divided(t, e);
    forall a, c, e | a in t.actors && c in a.children && inv(e) ensures inv(BirthTyped(a, c, e)) {
      BirthStaysDivided(t, a, c, e);
    }
    forall e | inv(e) && PassTyped(t, |t.actors|, e) == e ensures inv(MembersTyped(t, |t.members|, e)) {
      MembersStayDivided(t, e);
    }
    SeedIsEarly(t);
    DerivationKeeps(t, inv, found);
  }

  ghost function Late(t: Topology): set<Name> {
    set x | x in Declared(t) && !Early(t, x)
  }

  lemma LateDepends(t: Topology, found: Types)
    requires ROOT in Anchors(t) && IsDerivation(t, found) && found.sources.Keys == Declared(t)
    ensures Dependents(found.sources) == Late(t)
  {
    DerivationIsDivided(t, found);
  }

  lemma LateIsShared(t: Topology, u: Topology)
    requires SameDeclarations(t, u)
    ensures Late(t) == Late(u)
  {
    assert Declared(t) == Declared(u);
    SharedStages(t, u);
  }

  // ------------------------------------------------------------ exactly when

  /** Every order of the same declarations has the same verdict. */
  ghost predicate VerdictFree(t: Topology) {
    forall u :: Reorders(t, u) ==> (Recursive(u) <==> Recursive(t))
  }

  lemma TypedRootVerdict(t: Topology, u: Topology)
    requires Connected(u) && SameDeclarations(t, u) && ROOT in Anchors(u)
    ensures Recursive(u) <==> CyclicWith(t, Late(t))
  {
    var b := DerivationExists(u);
    VerdictOf(t, u, b);
    DerivationIsTotal(u, b);
    LateDepends(u, b);
    LateIsShared(t, u);
  }

  lemma TypedRootIsFree(t: Topology)
    requires Connected(t) && ROOT in Anchors(t)
    ensures VerdictFree(t)
  {
    TypedRootVerdict(t, t);
    forall u | Reorders(t, u) ensures Recursive(u) <==> Recursive(t) {
      ReordersIsConnected(t, u);
      SharedStages(t, u);
      TypedRootVerdict(t, u);
    }
  }

  lemma SharedBounds(t: Topology, u: Topology)
    requires SameDeclarations(t, u)
    ensures May(t) == May(u) && Must(t) == Must(u)
  {
    assert Anchors(t) == Anchors(u) && Declared(t) == Declared(u) && Passing(t) == Passing(u) && FreeSeeds(t) == FreeSeeds(u);
  }

  /** Every verdict lies between those of the two bounds. */
  lemma VerdictIsBetween(t: Topology, u: Topology)
    requires Connected(t) && AllUniform(t) && ROOT !in Anchors(t) && t.members == [] && Reorders(t, u)
    ensures CyclicWith(t, Must(t)) ==> Recursive(u)
    ensures Recursive(u) ==> CyclicWith(t, May(t))
  {
    ReordersIsConnected(t, u);
    assert AllUniform(u) && Anchors(t) == Anchors(u);
    var b := DerivationExists(u);
    VerdictOf(t, u, b);
    DependentsAreBetween(u, b);
    SharedBounds(t, u);
    if CyclicWith(t, Must(t)) {
      MoreIsCyclic(t, Must(t), Dependents(b.sources));
    }
    if Recursive(u) {
      MoreIsCyclic(t, Dependents(b.sources), May(t));
    }
  }

  /** And both bounds are verdicts. */
  lemma BoundsAreVerdicts(t: Topology)
    requires Connected(t) && AllUniform(t) && ROOT !in Anchors(t)
    ensures CyclicWith(t, May(t)) ==> exists u :: Reorders(t, u) && Recursive(u)
    ensures !CyclicWith(t, Must(t)) ==> exists u :: Reorders(t, u) && !Recursive(u)
  {
    var u, b := MayIsReached(t);
    VerdictOf(t, u, b);
    if CyclicWith(t, May(t)) {
      MoreIsCyclic(t, May(t), Dependents(b.sources));
    }
    var u', b' := MustIsReached(t);
    VerdictOf(t, u', b');
    if Recursive(u') {
      MoreIsCyclic(t, Dependents(b'.sources), Must(t));
    }
  }

  lemma InferredRootIsFreeIff(t: Topology)
    requires Connected(t) && AllUniform(t) && ROOT !in Anchors(t) && t.members == []
    ensures VerdictFree(t) <==> (CyclicWith(t, May(t)) ==> CyclicWith(t, Must(t)))
  {
    BoundsAreVerdicts(t);
    forall u | Reorders(t, u)
      ensures CyclicWith(t, Must(t)) ==> Recursive(u)
      ensures Recursive(u) ==> CyclicWith(t, May(t))
    {
      VerdictIsBetween(t, u);
    }
    assert Reorders(t, t);
  }

  /** Exact: the order of well-formed declarations does not matter to the recursion check if and
      only if the root's type is given, or a cycle of classes that may depend on the root is
      already one of classes that must. */
  lemma VerdictFreeIff(t: Topology, spell: Name -> Name)
    requires WellFormed(t, spell)
    ensures VerdictFree(t) <==> ROOT in Anchors(t) || (CyclicWith(t, May(t)) ==> CyclicWith(t, Must(t)))
  {
    WellFormedIsConnected(t, spell);
    WellFormedIsUniform(t, spell);
    if ROOT in Anchors(t) {
      TypedRootIsFree(t);
    } else {
      InferredRootHasNoMembers(t, spell);
      InferredRootIsFreeIff(t);
    }
  }

  lemma InferredRootHasNoMembers(t: Topology, spell: Name -> Name)
    requires WellFormed(t, spell) && ROOT !in Anchors(t)
    ensures t.members == []
  {
    var root :| root in t.actors && root.name == ROOT && MembersOk(t, root) && RootOk(t, root);
    assert root.behavior.None?;
  }
}
