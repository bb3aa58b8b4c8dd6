/** The order of declarations: two stages of typing, the sources on which births agree, and two
    orders of the same declarations with opposite verdicts. */
module TopologyOrder {
  import opened Basics
  import opened Graphs
  import opened TopologyModel
  import opened TopologyTyping
  import opened TopologyRecursion

  // ----------------------------------------------------------- when it does not

  /** The same classes, members and families, in whatever order the classes are declared. */
  ghost predicate SameDeclarations(t: Topology, u: Topology) {
    (forall a :: a in t.actors <==> a in u.actors) && t.members == u.members && t.families == u.families
  }

  /** Classes whose type needs no typed parent or follows from the anchors and the root. */
  function EarlySeeds(t: Topology): set<Name> {
    Anchors(t) + {ROOT} + set a, c | a in t.actors && c in a.children && Nominal(a, c) :: c.actor
  }

  ghost predicate Early(t: Topology, x: Name) {
    ReachedFrom(EdgesOf(t), EarlySeeds(t), x)
  }

  /** A cold member that only its own parameter can type. */
  ghost predicate Cold(t: Topology, x: Name) {
    x in MemberNames(t) && !Early(t, x)
  }

  /** What one birth hands on. */
  function Inherits(sources: map<Name, set<Parameter>>, parent: ActorClass, child: Child): set<Parameter>
    requires parent.name in sources
  {
    if Nominal(parent, child) then {} else sources[parent.name]
  }

  /** All births of a class agree on what it inherits, apart from births that always come too
      late: those of a class that waits for the cold members, when the child does not. */
  ghost predicate Consistent(t: Topology, sources: map<Name, set<Parameter>>) {
    && Declared(t) + EarlySeeds(t) + MemberNames(t) <= sources.Keys
    && (forall x :: x in Anchors(t) ==> sources[x] == {})
    && (ROOT !in Anchors(t) ==> sources[ROOT] == {ExecutedRoot})
    && (forall x :: Cold(t, x) ==> sources[x] == {MemberActor(x)})
    && forall a, c :: a in t.actors && c in a.children ==> BirthAgrees(t, sources, a, c)
  }

  ghost predicate ComesLate(t: Topology, a: ActorClass, c: Child) {
    Early(t, c.actor) && !Early(t, a.name) && !Nominal(a, c)
  }

  ghost predicate BirthAgrees(t: Topology, sources: map<Name, set<Parameter>>, a: ActorClass, c: Child) {
    c.actor in Anchors(t) || c.actor == ROOT || Cold(t, c.actor) || ComesLate(t, a, c) ||
    (a.name in sources && c.actor in sources && sources[c.actor] == Inherits(sources, a, c))
  }

  /** Before the cold members are parameters only early classes are typed, and afterwards
      all of them are. */
  ghost predicate Staged(t: Topology, found: Types) {
    || (forall x :: x in found.sources ==> Early(t, x))
    || (MemberNames(t) <= found.sources.Keys && forall x :: Early(t, x) ==> x in found.sources)
  }

  /** What the rounds keep: the agreed sources and the stage. */
  ghost predicate Agrees(t: Topology, sources: map<Name, set<Parameter>>, found: Types) {
    && (forall x :: x in found.sources ==> x in sources && found.sources[x] == sources[x])
    && Anchors(t) + {ROOT} <= found.sources.Keys
    && Staged(t, found)
  }

  lemma BirthKeepsAgreement(t: Topology, sources: map<Name, set<Parameter>>, a: ActorClass, c: Child, found: Types)
    requires Consistent(t, sources) && Agrees(t, sources, found) && a in t.actors && c in a.children
    ensures Agrees(t, sources, BirthTyped(a, c, found))
  {
    if c.actor !in found.sources && (Nominal(a, c) || a.name in found.sources) {
      BirthInTime(t, a, c, found);
      assert BirthAgrees(t, sources, a, c);
    }
  }

  /** A birth that types its child comes in time, and keeps the stage. */
  lemma BirthInTime(t: Topology, a: ActorClass, c: Child, found: Types)
    requires Staged(t, found) && a in t.actors && c in a.children
    requires c.actor !in found.sources && (Nominal(a, c) || a.name in found.sources)
    ensures !Cold(t, c.actor) && !ComesLate(t, a, c) && Staged(t, BirthTyped(a, c, found))
  {
    if forall x :: x in found.sources ==> Early(t, x) {
      BirthIsEarly(t, a, c);
    }
  }

  lemma BirthIsEarly(t: Topology, a: ActorClass, c: Child)
    requires a in t.actors && c in a.children && (Nominal(a, c) || Early(t, a.name))
    ensures Early(t, c.actor)
  {
    if Nominal(a, c) {
      assert c.actor in EarlySeeds(t);
      Stay(EdgesOf(t), c.actor);
    } else {
      var s :| s in EarlySeeds(t) && Reaches(EdgesOf(t), s, a.name);
      assert (a.name, c.actor) in EdgesOf(t);
      Extend(EdgesOf(t), s, a.name, c.actor);
    }
  }

  lemma SilentIsClosed(t: Topology, found: Types)
    requires PassTyped(t, |t.actors|, found) == found && Anchors(t) + {ROOT} <= found.sources.Keys
    ensures Closed(EdgesOf(t), found.sources.Keys) && EarlySeeds(t) <= found.sources.Keys
  {
    SilentPassIsClosed(t, found);
    forall x | x in EarlySeeds(t) ensures x in found.sources.Keys {
      if x !in Anchors(t) + {ROOT} {
        var a, c :| a in t.actors && c in a.children && Nominal(a, c) && c.actor == x;
        SilentBirth(t, found, a, c);
      }
    }
  }

  lemma EarlyIsTyped(t: Topology, found: Types, x: Name)
    requires PassTyped(t, |t.actors|, found) == found && Anchors(t) + {ROOT} <= found.sources.Keys && Early(t, x)
    ensures x in found.sources
  {
    SilentIsClosed(t, found);
    var s :| s in EarlySeeds(t) && Reaches(EdgesOf(t), s, x);
    var p :| PathBetween(EdgesOf(t), p, s, x);
    ClosedCovers(EdgesOf(t), found.sources.Keys, p);
  }

  /** The agreed sources, without the stage. */
  ghost predicate Matches(sources: map<Name, set<Parameter>>, found: Types) {
    forall x :: x in found.sources ==> x in sources && found.sources[x] == sources[x]
  }

  lemma UntypedIsCold(t: Topology, found: Types, x: Name)
    requires PassTyped(t, |t.actors|, found) == found && Anchors(t) + {ROOT} <= found.sources.Keys
    requires x in MemberNames(t) && x !in found.sources
    ensures Cold(t, x)
  {
    if Early(t, x) {
      EarlyIsTyped(t, found, x);
    }
  }

  ghost predicate ColdAgrees(t: Topology, sources: map<Name, set<Parameter>>) {
    forall x :: Cold(t, x) ==> x in sources && sources[x] == {MemberActor(x)}
  }

  lemma {:induction false} MembersKeepAgreement(t: Topology, sources: map<Name, set<Parameter>>, n: nat, found: Types)
    requires ColdAgrees(t, sources) && Matches(sources, found) && n <= |t.members|
    requires PassTyped(t, |t.actors|, found) == found && Anchors(t) + {ROOT} <= found.sources.Keys
    ensures Matches(sources, MembersTyped(t, n, found))
  {
    if n > 0 {
      MembersKeepAgreement(t, sources, n - 1, found);
      var name := t.members[n - 1].actor;
      assert t.members[n - 1] in t.members && name in MemberNames(t);
      MembersGrow(t, n - 1, found);
      if name !in found.sources {
        UntypedIsCold(t, found, name);
      }
    }
  }

  lemma MembersAgree(t: Topology, sources: map<Name, set<Parameter>>, found: Types)
    requires Consistent(t, sources) && Agrees(t, sources, found) && PassTyped(t, |t.actors|, found) == found
    ensures Agrees(t, sources, MembersTyped(t, |t.members|, found))
  {
    MembersKeepAgreement(t, sources, |t.members|, found);
    MembersGrow(t, |t.members|, found);
    MembersCover(t, |t.members|, found);
    forall x | Early(t, x) ensures x in found.sources {
      EarlyIsTyped(t, found, x);
    }
  }

  lemma SeedAgrees(t: Topology, sources: map<Name, set<Parameter>>)
    requires Consistent(t, sources)
    ensures Agrees(t, sources, SeedTyped(t))
  {
    forall x | x in SeedTyped(t).sources ensures Early(t, x) {
      Stay(EdgesOf(t), x);
    }
  }

  /** With agreeing births, the derivation is the agreed one. */
  lemma ConsistentIsDerived(t: Topology, sources: map<Name, set<Parameter>>, found: Types)
    requires Consistent(t, sources) && IsDerivation(t, found)
    ensures Matches(sources, found)
  {
    var inv: Types -> bool := (e: Types) => Agrees(t, sources, e);
    forall a, c, e | a in t.actors && c in a.children && inv(e) ensures inv(BirthTyped(a, c, e)) {
      BirthKeepsAgreement(t, sources, a, c, e);
    }
    forall e | inv(e) && PassTyped(t, |t.actors|, e) == e ensures inv(MembersTyped(t, |t.members|, e)) {
      MembersAgree(t, sources, e);
    }
    SeedAgrees(t, sources);
    DerivationKeeps(t, inv, found);
  }

  /** The stages do not depend on the order. */
  lemma SharedStages(t: Topology, u: Topology)
    requires SameDeclarations(t, u)
    ensures Anchors(t) == Anchors(u) && EdgesOf(t) == EdgesOf(u) && EarlySeeds(t) == EarlySeeds(u)
    ensures MemberNames(t) == MemberNames(u)
    ensures forall x :: Early(t, x) <==> Early(u, x)
  {
  }

  lemma ConsistencyIsShared(t: Topology, u: Topology, sources: map<Name, set<Parameter>>)
    requires SameDeclarations(t, u) && Consistent(t, sources)
    ensures Consistent(u, sources) && EdgesOf(t) == EdgesOf(u) && Declared(t) == Declared(u)
  {
    assert Declared(t) == Declared(u);
    SharedStages(t, u);
    forall a, c | a in u.actors && c in a.children ensures BirthAgrees(u, sources, a, c) {
      assert BirthAgrees(t, sources, a, c);
    }
  }

  lemma RecursionOf(t: Topology, found: Types)
    requires IsDerivation(t, found)
    ensures Recursive(t) <==> CyclicWith(t, Dependents(found.sources))
  {
    forall other | IsDerivation(t, other) ensures other == found {
      OneDerivation(t, other, found);
    }
  }

  // ------------------------------------------------------------------ when it does

  const X: Name := "x"
  const F: Name := "f"
  const Y: Name := "y"

  function Spelled(name: Name): Name {
    name
  }

  function Parent(name: Name, child: Name): ActorClass {
    ActorClass(name, None, None, None, [Child("only", None, child)])
  }

  /** The root bears `x`, and `x` and the family `f` both bear `y`, which bears itself. */
  function RootFirst(): Topology {
    Topology([Parent(ROOT, X), Parent(X, Y), Parent(F, Y), Parent(Y, Y)], [], [], [F])
  }

  function FamilyFirst(): Topology {
    Topology([Parent(F, Y), Parent(ROOT, X), Parent(X, Y), Parent(Y, Y)], [], [], [F])
  }

  /** The family is the only anchor, and the root a parameter. */
  function Seeded(): Types {
    Types(map[F := {}, ROOT := {ExecutedRoot}], map[])
  }

  lemma BothSeed()
    ensures SeedTyped(RootFirst()) == Seeded() && SeedTyped(FamilyFirst()) == Seeded()
  {
    assert Anchors(RootFirst()) == {F} && Anchors(FamilyFirst()) == {F};
  }

  /** One class with one birth. */
  lemma TypesOne(name: Name, child: Name, found: Types)
    ensures ChildrenTyped(Parent(name, child), 1, found) == BirthTyped(Parent(name, child), Child("only", None, child), found)
  {
    assert ChildrenTyped(Parent(name, child), 0, found) == found;
  }

  lemma PassOfFour(t: Topology, a: ActorClass, b: ActorClass, c: ActorClass, d: ActorClass, found: Types)
    requires t.actors == [a, b, c, d] && |a.children| == |b.children| == |c.children| == |d.children| == 1
    ensures PassTyped(t, 4, found) == ChildrenTyped(d, 1, ChildrenTyped(c, 1, ChildrenTyped(b, 1, ChildrenTyped(a, 1, found))))
  {
    assert PassTyped(t, 0, found) == found;
    assert PassTyped(t, 1, found) == ChildrenTyped(a, 1, found);
    assert PassTyped(t, 2, found) == ChildrenTyped(b, 1, PassTyped(t, 1, found));
    assert PassTyped(t, 3, found) == ChildrenTyped(c, 1, PassTyped(t, 2, found));
  }

  function Dependent(): Types {
    Types(map[F := {}, ROOT := {ExecutedRoot}, X := {ExecutedRoot}, Y := {ExecutedRoot}],
          map[X := (ROOT, "only"), Y := (X, "only")])
  }

  function Independent(): Types {
    Types(map[F := {}, ROOT := {ExecutedRoot}, X := {ExecutedRoot}, Y := {}],
          map[X := (ROOT, "only"), Y := (F, "only")])
  }

  lemma AllTypedIsSilent(name: Name, child: Name, found: Types)
    requires child in found.sources
    ensures ChildrenTyped(Parent(name, child), 1, found) == found
  {
    TypesOne(name, child, found);
  }

  lemma RootFirstDerives()
    ensures IsDerivation(RootFirst(), Dependent())
  {
    var t, seed, found := RootFirst(), Seeded(), Dependent();
    BothSeed();
    TypesOne(ROOT, X, seed);
    var one := Types(map[F := {}, ROOT := {ExecutedRoot}, X := {ExecutedRoot}], map[X := (ROOT, "only")]);
    assert ChildrenTyped(Parent(ROOT, X), 1, seed) == one;
    TypesOne(X, Y, one);
    assert ChildrenTyped(Parent(X, Y), 1, one) == found;
    AllTypedIsSilent(F, Y, found);
    AllTypedIsSilent(Y, Y, found);
    PassOfFour(t, Parent(ROOT, X), Parent(X, Y), Parent(F, Y), Parent(Y, Y), seed);
    assert RoundTyped(t, seed) == found by {
      assert X in found.sources.Keys && X !in seed.sources.Keys;
    }
    AllTypedIsSilent(ROOT, X, found);
    AllTypedIsSilent(X, Y, found);
    PassOfFour(t, Parent(ROOT, X), Parent(X, Y), Parent(F, Y), Parent(Y, Y), found);
    assert MembersTyped(t, 0, found) == found;
    assert RoundsTyped(t, 0, seed) == seed;
    assert IsDerivationAt(t, found, 1);
  }

  lemma FamilyFirstTypes()
    ensures PassTyped(FamilyFirst(), 4, Seeded()) == Independent()
  {
    var seed, found := Seeded(), Independent();
    TypesOne(F, Y, seed);
    var one := Types(map[F := {}, ROOT := {ExecutedRoot}, Y := {}], map[Y := (F, "only")]);
    assert ChildrenTyped(Parent(F, Y), 1, seed) == one;
    TypesOne(ROOT, X, one);
    assert ChildrenTyped(Parent(ROOT, X), 1, one) == found;
    AllTypedIsSilent(X, Y, found);
    AllTypedIsSilent(Y, Y, found);
    PassOfFour(FamilyFirst(), Parent(F, Y), Parent(ROOT, X), Parent(X, Y), Parent(Y, Y), seed);
  }

  /** Once every child is typed, a pass types nothing more. */
  lemma FullPass(t: Topology, p: Name, a: Name, q: Name, b: Name, r: Name, c: Name, s: Name, d: Name, found: Types)
    requires t.actors == [Parent(p, a), Parent(q, b), Parent(r, c), Parent(s, d)] && {a, b, c, d} <= found.sources.Keys
    ensures PassTyped(t, 4, found) == found
  {
    PassOfFour(t, Parent(p, a), Parent(q, b), Parent(r, c), Parent(s, d), found);
    AllTypedIsSilent(p, a, found);
    AllTypedIsSilent(q, b, found);
    AllTypedIsSilent(r, c, found);
    AllTypedIsSilent(s, d, found);
  }

  /** One pass from the seed that types something, and then nothing more. */
  lemma OneRound(t: Topology, found: Types)
    requires |t.actors| == 4 && t.members == [] && PassTyped(t, 4, SeedTyped(t)) == found && PassTyped(t, 4, found) == found
    requires found.sources.Keys != SeedTyped(t).sources.Keys
    ensures IsDerivation(t, found)
  {
    assert RoundsTyped(t, 0, SeedTyped(t)) == SeedTyped(t);
    assert MembersTyped(t, 0, found) == found;
    assert IsDerivationAt(t, found, 1);
  }

  lemma FamilyFirstDerives()
    ensures IsDerivation(FamilyFirst(), Independent())
  {
    BothSeed();
    FamilyFirstTypes();
    FullPass(FamilyFirst(), F, Y, ROOT, X, X, Y, Y, Y, Independent());
    assert X in Independent().sources.Keys && X !in Seeded().sources.Keys;
    OneRound(FamilyFirst(), Independent());
  }

  lemma EdgeOfFour(t: Topology, p: Name, a: Name, q: Name, b: Name, r: Name, c: Name, s: Name, d: Name, e: (Name, Name))
    requires t.actors == [Parent(p, a), Parent(q, b), Parent(r, c), Parent(s, d)] && e in EdgesOf(t)
    ensures e == (p, a) || e == (q, b) || e == (r, c) || e == (s, d)
  {
    var parent, child :| parent in t.actors && child in parent.children && e == (parent.name, child.actor);
    var i :| 0 <= i < 4 && t.actors[i] == parent;
    assert child == parent.children[0];
  }

  lemma EdgeAt(t: Topology, i: nat, name: Name, child: Name)
    requires i < |t.actors| && t.actors[i] == Parent(name, child)
    ensures (name, child) in EdgesOf(t) && name in Declared(t)
  {
    assert t.actors[i] in t.actors && t.actors[i].children[0] in t.actors[i].children;
  }

  lemma EdgesOfFour(t: Topology, p: Name, a: Name, q: Name, b: Name, r: Name, c: Name, s: Name, d: Name)
    requires t.actors == [Parent(p, a), Parent(q, b), Parent(r, c), Parent(s, d)]
    ensures EdgesOf(t) == {(p, a), (q, b), (r, c), (s, d)} && Declared(t) == {p, q, r, s}
  {
    var four := {(p, a), (q, b), (r, c), (s, d)};
    assert EdgesOf(t) <= four by {
      forall e | e in EdgesOf(t) ensures e in four {
        EdgeOfFour(t, p, a, q, b, r, c, s, d, e);
      }
    }
    FourAreEdges(t, p, a, q, b, r, c, s, d);
    assert Declared(t) <= {p, q, r, s};
  }

  lemma FourAreEdges(t: Topology, p: Name, a: Name, q: Name, b: Name, r: Name, c: Name, s: Name, d: Name)
    requires t.actors == [Parent(p, a), Parent(q, b), Parent(r, c), Parent(s, d)]
    ensures {(p, a), (q, b), (r, c), (s, d)} <= EdgesOf(t) && {p, q, r, s} <= Declared(t)
  {
    EdgeAt(t, 0, p, a);
    EdgeAt(t, 1, q, b);
    EdgeAt(t, 2, r, c);
    EdgeAt(t, 3, s, d);
  }

  const FOUR: Edges := {(ROOT, X), (X, Y), (F, Y), (Y, Y)}

  lemma EdgesOfBoth()
    ensures EdgesOf(RootFirst()) == FOUR && EdgesOf(FamilyFirst()) == FOUR
    ensures Declared(RootFirst()) == {ROOT, X, F, Y} && Declared(FamilyFirst()) == {ROOT, X, F, Y}
  {
    EdgesOfFour(RootFirst(), ROOT, X, X, Y, F, Y, Y, Y);
    EdgesOfFour(FamilyFirst(), F, Y, ROOT, X, X, Y, Y, Y);
  }

  /** `y` depends on the root's parameter and bears itself. */
  lemma RootFirstIsRecursive()
    ensures Recursive(RootFirst())
  {
    var t, found := RootFirst(), Dependent();
    RootFirstDerives();
    EdgesOfBoth();
    assert t.actors[3] in t.actors && Y in Dependents(found.sources);
    assert Y in DependentBase(t, Dependents(found.sources));
    Stay(EdgesOf(t), Y);
    assert Y in SchemasOf(t, found);
    var induced := Induced(EdgesOf(t), SchemasOf(t, found));
    Stay(induced, Y);
    assert (Y, Y) in induced && OnCycle(induced, Y);
  }

  /** Nothing that reaches only `f` and `y` depends on a base away from them. */
  lemma ReachesNoBase(edges: Edges, base: set<Name>, f: Name, y: Name, x: Name)
    requires Closed(edges, {f, y}) && base !! {f, y} && ReachesSome(edges, x, base)
    ensures x != f && x != y
  {
    var b :| b in base && Reaches(edges, x, b);
    var p :| PathBetween(edges, p, x, b);
    if x == f || x == y {
      ClosedCovers(edges, {f, y}, p);
    }
  }

  lemma BaseOfFamilyFirst()
    ensures DependentBase(FamilyFirst(), Dependents(Independent().sources)) <= {ROOT, X}
  {
    var t := FamilyFirst();
    assert Dependents(Independent().sources) == {ROOT, X};
    forall a | a in t.actors && a.name in {F, Y} ensures forall c :: c in a.children ==> c.actor == Y {
    }
  }

  lemma SchemasAvoid(t: Topology, found: Types, edges: Edges, others: set<Name>, f: Name, y: Name)
    requires EdgesOf(t) == edges && Declared(t) == others + {f, y} && Closed(edges, {f, y}) && others !! {f, y}
    requires DependentBase(t, Dependents(found.sources)) <= others
    ensures SchemasOf(t, found) <= others
  {
    forall x | x in SchemasOf(t, found) ensures x in others {
      ReachesNoBase(edges, DependentBase(t, Dependents(found.sources)), f, y, x);
    }
  }

  lemma OneEdgeIsAcyclic(edges: Edges, a: Name, b: Name)
    requires a != b && edges <= {(a, b)}
    ensures !Cyclic(edges)
  {
    forall x ensures !OnCycle(edges, x) {
      if y :| (x, y) in edges && Reaches(edges, y, x) {
        var next := FirstStep(edges, y, x);
      }
    }
  }

  /** A derivation whose schemas are joined by one edge at most is not recursive. */
  lemma OneEdgeIsNotRecursive(t: Topology, found: Types, edges: Edges, a: Name, b: Name)
    requires IsDerivation(t, found) && EdgesOf(t) == edges && SchemasOf(t, found) <= {a, b}
    requires a != b && Induced(edges, {a, b}) == {(a, b)}
    ensures !Recursive(t)
  {
    OneEdgeIsAcyclic(Induced(edges, SchemasOf(t, found)), a, b);
    RecursionOf(t, found);
  }

  lemma FourWithoutRecursion(t: Topology, found: Types, r: Name, x: Name, f: Name, y: Name)
    requires r != x && r != f && r != y && x != f && x != y && f != y
    requires EdgesOf(t) == {(r, x), (x, y), (f, y), (y, y)} && Declared(t) == {r, x, f, y}
    requires IsDerivation(t, found) && DependentBase(t, Dependents(found.sources)) <= {r, x}
    ensures !Recursive(t)
  {
    var edges := {(r, x), (x, y), (f, y), (y, y)};
    assert Closed(edges, {f, y}) && Induced(edges, {r, x}) == {(r, x)};
    SchemasAvoid(t, found, edges, {r, x}, f, y);
    OneEdgeIsNotRecursive(t, found, edges, r, x);
  }

  lemma NamesDiffer()
    ensures ROOT != X && ROOT != F && ROOT != Y && X != F && X != Y && F != Y
  {
    assert ROOT[0] == 'r' && X[0] == 'x' && F[0] == 'f' && Y[0] == 'y';
  }

  lemma FamilyFirstIsNotRecursive()
    ensures !Recursive(FamilyFirst())
  {
    FamilyFirstDerives();
    EdgesOfBoth();
    BaseOfFamilyFirst();
    NamesDiffer();
    FourWithoutRecursion(FamilyFirst(), Independent(), ROOT, X, F, Y);
  }

  // --------------------------------------------------- both are otherwise accepted

  lemma EveryoneIsReached(t: Topology)
    requires EdgesOf(t) == FOUR && Seeds(t) == {ROOT, F} && Declared(t) == {ROOT, X, F, Y}
    ensures AllReachable(t)
  {
    Stay(FOUR, ROOT);
    Stay(FOUR, F);
    Extend(FOUR, ROOT, ROOT, X);
    Extend(FOUR, ROOT, X, Y);
  }

  lemma FourAreOk(t: Topology, p: Name, a: Name, q: Name, b: Name, r: Name, c: Name, s: Name, d: Name)
    requires t.actors == [Parent(p, a), Parent(q, b), Parent(r, c), Parent(s, d)]
    requires p != q && p != r && p != s && q != r && q != s && r != s
    ensures ClassesOk(t.actors, Spelled)
  {
  }

  ghost predicate Plain(t: Topology) {
    forall a :: a in t.actors ==> a.behavior.None? && a.host.None? && |a.children| == 1
  }

  lemma FourArePlain(t: Topology, p: Name, a: Name, q: Name, b: Name, r: Name, c: Name, s: Name, d: Name)
    requires t.actors == [Parent(p, a), Parent(q, b), Parent(r, c), Parent(s, d)]
    ensures Plain(t)
  {
  }

  lemma FourWellFormed(t: Topology, i: nat)
    requires EdgesOf(t) == FOUR && Declared(t) == {ROOT, X, F, Y} && ClassesOk(t.actors, Spelled) && Plain(t)
    requires t.hosts == [] && t.members == [] && t.families == [F] && F != ROOT
    requires i < |t.actors| && t.actors[i].name == ROOT
    ensures WellFormed(t, Spelled)
  {
    assert MemberNames(t) == {} && FamilyNames(t) == {F} && Seeds(t) == {ROOT, F};
    EveryoneIsReached(t);
    assert t.actors[i] in t.actors && MembersOk(t, t.actors[i]) && RootOk(t, t.actors[i]);
  }

  lemma RootFirstIsWellFormed()
    ensures WellFormed(RootFirst(), Spelled)
  {
    EdgesOfBoth();
    NamesDiffer();
    FourAreOk(RootFirst(), ROOT, X, X, Y, F, Y, Y, Y);
    FourArePlain(RootFirst(), ROOT, X, X, Y, F, Y, Y, Y);
    FourWellFormed(RootFirst(), 0);
  }

  lemma FamilyFirstIsWellFormed()
    ensures WellFormed(FamilyFirst(), Spelled)
  {
    EdgesOfBoth();
    NamesDiffer();
    FourAreOk(FamilyFirst(), F, Y, ROOT, X, X, Y, Y, Y);
    FourArePlain(FamilyFirst(), F, Y, ROOT, X, X, Y, Y, Y);
    FourWellFormed(FamilyFirst(), 1);
  }

  /** The same declarations in two orders: one is refused as recursive, the other accepted.
      Whether `y` depends on a parameter is decided by which of its parents comes first. */
  lemma OrderDecidesRecursion()
    ensures SameDeclarations(RootFirst(), FamilyFirst())
    ensures WellFormed(RootFirst(), Spelled) && WellFormed(FamilyFirst(), Spelled)
    ensures Recursive(RootFirst()) && !Recursive(FamilyFirst())
  {
    RootFirstIsWellFormed();
    FamilyFirstIsWellFormed();
    RootFirstIsRecursive();
    FamilyFirstIsNotRecursive();
  }
}
