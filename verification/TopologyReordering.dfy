/** Exactly when the order of declarations does not matter to the derived sources: if one birth
    disagrees, an order that declares its parent's own derivation first derives something else. */
module TopologyReordering {
  import opened Graphs
  import opened TopologyModel
  import opened TopologyTyping
  import opened TopologyOrder

  // ------------------------------------------------------------ nothing is retyped

  ghost predicate Extends(a: Types, b: Types) {
    forall x :: x in a.sources ==> x in b.sources && b.sources[x] == a.sources[x]
  }

  lemma {:induction false} ChildrenExtend(a: ActorClass, n: nat, m: nat, found: Types)
    requires n <= m <= |a.children|
    ensures Extends(ChildrenTyped(a, n, found), ChildrenTyped(a, m, found))
    decreases m
  {
    if n < m {
      ChildrenExtend(a, n, m - 1, found);
    }
  }

  lemma {:induction false} PassExtends(t: Topology, n: nat, m: nat, found: Types)
    requires n <= m <= |t.actors|
    ensures Extends(PassTyped(t, n, found), PassTyped(t, m, found))
    decreases m
  {
    if n < m {
      PassExtends(t, n, m - 1, found);
      ChildrenExtend(t.actors[m - 1], 0, |t.actors[m - 1].children|, PassTyped(t, m - 1, found));
    }
  }

  lemma {:induction false} MembersExtend(t: Topology, n: nat, found: Types)
    requires n <= |t.members|
    ensures Extends(found, MembersTyped(t, n, found))
  {
    if n > 0 {
      MembersExtend(t, n - 1, found);
    }
  }

  lemma RoundExtends(t: Topology, n: nat, found: Types)
    requires n <= |t.actors|
    ensures Extends(PassTyped(t, n, found), RoundTyped(t, found)) && Extends(found, RoundTyped(t, found))
  {
    PassExtends(t, n, |t.actors|, found);
    PassExtends(t, 0, |t.actors|, found);
    MembersExtend(t, |t.members|, PassTyped(t, |t.actors|, found));
  }

  lemma {:induction false} RoundsExtend(t: Topology, k: nat, more: nat)
    ensures Extends(RoundsTyped(t, k, SeedTyped(t)), RoundsTyped(t, k + more, SeedTyped(t)))
    decreases more
  {
    if more > 0 {
      RoundsExtend(t, k, more - 1);
      RoundExtends(t, 0, RoundsTyped(t, k + more - 1, SeedTyped(t)));
    }
  }

  /** Every round is kept by the derivation. */
  lemma DerivationExtends(t: Topology, found: Types, k: nat)
    requires IsDerivation(t, found)
    ensures Extends(RoundsTyped(t, k, SeedTyped(t)), found)
  {
    var j: nat :| IsDerivationAt(t, found, j);
    RoundsStay(t, j, k, found);
    RoundsExtend(t, k, j);
  }

  // ------------------------------------------------------------ it ends

  lemma {:induction false} MembersStayWithin(t: Topology, n: nat, found: Types, names: set<Name>)
    requires MemberNames(t) <= names && n <= |t.members| && found.sources.Keys <= names
    ensures MembersTyped(t, n, found).sources.Keys <= names
  {
    if n > 0 {
      MembersStayWithin(t, n - 1, found, names);
      assert t.members[n - 1] in t.members;
    }
  }

  lemma RoundsAreDeclared(t: Topology, k: nat)
    requires Connected(t)
    ensures RoundsTyped(t, k, SeedTyped(t)).sources.Keys <= Declared(t)
  {
    var inv: Types -> bool := (e: Types) => e.sources.Keys <= Declared(t);
    forall a, c, e | a in t.actors && c in a.children && inv(e) ensures inv(BirthTyped(a, c, e)) {
      assert (a.name, c.actor) in EdgesOf(t);
    }
    forall e | inv(e) && PassTyped(t, |t.actors|, e) == e ensures inv(MembersTyped(t, |t.members|, e)) {
      MembersStayWithin(t, |t.members|, e, Declared(t));
    }
    RoundsKeepAll(t, inv, k);
  }

  lemma RoundStays(t: Topology, k: nat)
    requires RoundTyped(t, RoundsTyped(t, k, SeedTyped(t))) == RoundsTyped(t, k, SeedTyped(t))
    ensures IsDerivation(t, RoundsTyped(t, k, SeedTyped(t)))
  {
    assert IsDerivationAt(t, RoundsTyped(t, k, SeedTyped(t)), k);
  }

  /** Each round types something or is the last. */
  lemma {:induction false} RoundsClimb(t: Topology, k: nat)
    ensures (exists found :: IsDerivation(t, found)) || |RoundsTyped(t, k, SeedTyped(t)).sources.Keys| >= k
  {
    if k > 0 {
      RoundsClimb(t, k - 1);
      var found := RoundsTyped(t, k - 1, SeedTyped(t));
      RoundGrows(t, found);
      if RoundTyped(t, found) == found {
        RoundStays(t, k - 1);
      } else {
        var x :| x in RoundTyped(t, found).sources.Keys && x !in found.sources.Keys;
        SmallerSubset(found.sources.Keys, RoundTyped(t, found).sources.Keys, x);
      }
    }
  }

  /** Every connected topology has a derivation. */
  lemma DerivationExists(t: Topology) returns (found: Types)
    requires Connected(t)
    ensures IsDerivation(t, found)
  {
    var k := |Declared(t)| + 1;
    RoundsClimb(t, k);
    RoundsAreDeclared(t, k);
    if RoundsTyped(t, k, SeedTyped(t)).sources.Keys != Declared(t) {
      var x :| x in Declared(t) && x !in RoundsTyped(t, k, SeedTyped(t)).sources.Keys;
      SmallerSubset(RoundsTyped(t, k, SeedTyped(t)).sources.Keys, Declared(t), x);
    }
    found :| IsDerivation(t, found);
  }

  lemma MembersAreTyped(t: Topology, found: Types, s: Name)
    requires s in MemberNames(t)
    ensures s in MembersTyped(t, |t.members|, found).sources
  {
    MembersCover(t, |t.members|, found);
    var m :| m in t.members && m.actor == s;
    var j :| 0 <= j < |t.members| && t.members[j] == m;
  }

  /** The last round finds nothing to type. */
  lemma LastIsSilent(t: Topology, found: Types)
    requires RoundTyped(t, found) == found
    ensures PassTyped(t, |t.actors|, found) == found && MembersTyped(t, |t.members|, found) == found
  {
    PassGrows(t, |t.actors|, found);
    MembersGrow(t, |t.members|, PassTyped(t, |t.actors|, found));
  }

  lemma SeedsAreTyped(t: Topology, found: Types, s: Name)
    requires s in Seeds(t) && Extends(SeedTyped(t), found) && MembersTyped(t, |t.members|, found) == found
    ensures s in found.sources
  {
    if s in MemberNames(t) {
      MembersAreTyped(t, found, s);
    } else {
      assert s in SeedTyped(t).sources;
    }
  }

  lemma ReachedIsTyped(edges: Edges, seeds: set<Name>, typed: set<Name>, x: Name)
    requires Closed(edges, typed) && seeds <= typed && ReachedFrom(edges, seeds, x)
    ensures x in typed
  {
    var s :| s in seeds && Reaches(edges, s, x);
    var p :| PathBetween(edges, p, s, x);
    ClosedCovers(edges, typed, p);
  }

  lemma TypedIsDeclared(t: Topology, found: Types)
    requires Connected(t) && IsDerivation(t, found)
    ensures found.sources.Keys <= Declared(t)
  {
    var k: nat :| IsDerivationAt(t, found, k);
    RoundsAreDeclared(t, k);
  }

  lemma DeclaredIsTyped(t: Topology, typed: set<Name>)
    requires AllReachable(t) && Closed(EdgesOf(t), typed) && Seeds(t) <= typed
    ensures Declared(t) <= typed
  {
    forall x | x in Declared(t) ensures x in typed {
      ReachedIsTyped(EdgesOf(t), Seeds(t), typed, x);
    }
  }

  /** It types exactly the declared classes. */
  lemma DerivationIsTotal(t: Topology, found: Types)
    requires Connected(t) && IsDerivation(t, found)
    ensures found.sources.Keys == Declared(t)
  {
    DerivationIsClosed(t, found);
    DeclaredIsTyped(t, found.sources.Keys);
    TypedIsDeclared(t, found);
  }

  lemma DerivationIsClosed(t: Topology, found: Types)
    requires IsDerivation(t, found)
    ensures Closed(EdgesOf(t), found.sources.Keys) && Seeds(t) <= found.sources.Keys
  {
    var k: nat :| IsDerivationAt(t, found, k);
    RoundsExtend(t, 0, k);
    LastIsSilent(t, found);
    SilentPassIsClosed(t, found);
    forall s | s in Seeds(t) ensures s in found.sources.Keys {
      SeedsAreTyped(t, found, s);
    }
  }

  // ------------------------------------------------------------ classes declared first

  function FrontTyped(p: seq<ActorClass>, found: Types): Types {
    if p == [] then found
    else ChildrenTyped(p[|p| - 1], |p[|p| - 1].children|, FrontTyped(p[..|p| - 1], found))
  }

  lemma {:induction false} FrontIsPass(t: Topology, n: nat, found: Types)
    requires n <= |t.actors|
    ensures PassTyped(t, n, found) == FrontTyped(t.actors[..n], found)
  {
    if n > 0 {
      FrontIsPass(t, n - 1, found);
      assert t.actors[..n][..n - 1] == t.actors[..n - 1];
    }
  }

  lemma FrontStep(p: seq<ActorClass>, a: ActorClass, found: Types)
    ensures FrontTyped(p + [a], found) == ChildrenTyped(a, |a.children|, FrontTyped(p, found))
  {
    assert (p + [a])[..|p|] == p;
  }

  /** What is typed depends on the sources alone. */
  lemma {:induction false} SameChildren(a: ActorClass, n: nat, found: Types, other: Types)
    requires n <= |a.children| && found.sources == other.sources
    ensures ChildrenTyped(a, n, found).sources == ChildrenTyped(a, n, other).sources
  {
    if n > 0 {
      SameChildren(a, n - 1, found, other);
    }
  }

  lemma {:induction false} SameFront(p: seq<ActorClass>, found: Types, other: Types)
    requires found.sources == other.sources
    ensures FrontTyped(p, found).sources == FrontTyped(p, other).sources
  {
    if p != [] {
      SameFront(p[..|p| - 1], found, other);
      var a := p[|p| - 1];
      SameChildren(a, |a.children|, FrontTyped(p[..|p| - 1], found), FrontTyped(p[..|p| - 1], other));
    }
  }

  /** All births of a nominal class are nominal. */
  predicate Uniform(a: ActorClass) {
    forall c :: c in a.children ==> (Nominal(a, c) <==> a.roleParent.Some?)
  }

  lemma LawfulIsUniform(a: ActorClass)
    requires ClassOk(a)
    ensures Uniform(a)
  {
    if a.roleParent.Some? {
      var named :| named in a.children && named.role.Some?;
      assert forall c :: c in a.children && c.role.None? ==> c == named;
    }
  }

  /** What every birth of a class hands on. */
  function Gives(sources: map<Name, set<Parameter>>, a: ActorClass): set<Parameter> {
    if a.roleParent.Some? || a.name !in sources then {} else sources[a.name]
  }

  lemma {:induction false} AllAreTyped(a: ActorClass, n: nat, found: Types)
    requires n <= |a.children| && Uniform(a) && (a.roleParent.Some? || a.name in found.sources)
    ensures forall j :: 0 <= j < n ==> a.children[j].actor in ChildrenTyped(a, n, found).sources
  {
    if n > 0 {
      AllAreTyped(a, n - 1, found);
      ChildrenGrow(a, n - 1, found);
      assert a.children[n - 1] in a.children;
    }
  }

  /** Started from `start`, only `v` is handed on. */
  ghost predicate HandsOn(start: Types, v: set<Parameter>, found: Types) {
    && Extends(start, found)
    && forall x :: x in found.sources && x !in start.sources ==> found.sources[x] == v
  }

  lemma {:induction false} ChildrenHandOn(sources: map<Name, set<Parameter>>, start: Types, v: set<Parameter>, a: ActorClass, n: nat, found: Types)
    requires n <= |a.children| && Uniform(a) && Gives(sources, a) == v
    requires Matches(sources, start) && HandsOn(start, v, found)
    ensures HandsOn(start, v, ChildrenTyped(a, n, found))
  {
    if n > 0 {
      ChildrenHandOn(sources, start, v, a, n - 1, found);
      assert a.children[n - 1] in a.children;
    }
  }

  lemma {:induction false} FrontHandsOn(sources: map<Name, set<Parameter>>, start: Types, v: set<Parameter>, p: seq<ActorClass>)
    requires Matches(sources, start) && forall a :: a in p ==> Uniform(a) && Gives(sources, a) == v
    ensures HandsOn(start, v, FrontTyped(p, start))
  {
    if p != [] {
      var a := p[|p| - 1];
      FrontHandsOn(sources, start, v, p[..|p| - 1]);
      assert a in p;
      ChildrenHandOn(sources, start, v, a, |a.children|, FrontTyped(p[..|p| - 1], start));
    }
  }

  // ------------------------------------------------------------ the derivation of one class

  ghost predicate Distinct(p: seq<ActorClass>) {
    forall i, j :: 0 <= i < j < |p| ==> p[i] != p[j]
  }

  ghost predicate Spent(p: seq<ActorClass>, start: Types) {
    forall a, c :: a in p && c in a.children ==> c.actor in FrontTyped(p, start).sources
  }

  /** These classes are different, spent, and hand on nothing but `v`. */
  ghost predicate Fronts(t: Topology, sources: map<Name, set<Parameter>>, start: Types, p: seq<ActorClass>, v: set<Parameter>) {
    && (forall a :: a in p ==> a in t.actors && Gives(sources, a) == v)
    && Distinct(p) && Spent(p, start)
  }

  /** Declared first, these classes type `x`, and hand on nothing but `v`. */
  ghost predicate Leads(t: Topology, sources: map<Name, set<Parameter>>, start: Types, p: seq<ActorClass>, v: set<Parameter>, x: Name) {
    Fronts(t, sources, start, p, v) && x in FrontTyped(p, start).sources
  }

  ghost predicate Led(t: Topology, sources: map<Name, set<Parameter>>, start: Types, x: Name) {
    x in sources && exists p :: Leads(t, sources, start, p, sources[x], x)
  }

  /** One more class keeps what is spent. */
  lemma SpendOne(p: seq<ActorClass>, a: ActorClass, start: Types)
    requires Spent(p, start) && Uniform(a) && (a.roleParent.Some? || a.name in FrontTyped(p, start).sources)
    ensures Spent(p + [a], start)
  {
    var found := FrontTyped(p, start);
    FrontStep(p, a, start);
    ChildrenGrow(a, |a.children|, found);
    AllAreTyped(a, |a.children|, found);
    forall e, c | e in p + [a] && c in e.children ensures c.actor in FrontTyped(p + [a], start).sources {
      if e == a {
        var j :| 0 <= j < |a.children| && a.children[j] == c;
      }
    }
  }

  lemma FrontsOne(t: Topology, sources: map<Name, set<Parameter>>, start: Types, p: seq<ActorClass>, a: ActorClass)
    requires Fronts(t, sources, start, p, Gives(sources, a)) && a in t.actors && a !in p && Uniform(a)
    requires a.roleParent.Some? || a.name in FrontTyped(p, start).sources
    ensures Fronts(t, sources, start, p + [a], Gives(sources, a))
  {
    SpendOne(p, a, start);
  }

  /** The way to a parent: none for a nominal one. */
  lemma ParentIsLed(t: Topology, sources: map<Name, set<Parameter>>, start: Types, a: ActorClass) returns (p: seq<ActorClass>)
    requires a.roleParent.Some? || Led(t, sources, start, a.name)
    ensures Fronts(t, sources, start, p, Gives(sources, a))
    ensures a.roleParent.Some? || a.name in FrontTyped(p, start).sources
  {
    if a.roleParent.Some? {
      p := [];
    } else {
      p :| Leads(t, sources, start, p, sources[a.name], a.name);
    }
  }

  /** A birth whose parent can be led to leads to the child. */
  lemma BirthLeads(t: Topology, sources: map<Name, set<Parameter>>, start: Types, a: ActorClass, c: Child) returns (p: seq<ActorClass>)
    requires a in t.actors && c in a.children && Uniform(a)
    requires a.roleParent.Some? || Led(t, sources, start, a.name)
    ensures Leads(t, sources, start, p, Gives(sources, a), c.actor)
  {
    p := ParentIsLed(t, sources, start, a);
    if a !in p {
      FrontsOne(t, sources, start, p, a);
      p := p + [a];
    }
    SpentTypes(p, start, a, c);
  }

  lemma SpentTypes(p: seq<ActorClass>, start: Types, a: ActorClass, c: Child)
    requires Spent(p, start) && a in p && c in a.children
    ensures c.actor in FrontTyped(p, start).sources
  {
  }

  lemma BirthIsLed(t: Topology, sources: map<Name, set<Parameter>>, start: Types, a: ActorClass, c: Child, found: Types)
    requires a in t.actors && c in a.children && Uniform(a) && Matches(sources, BirthTyped(a, c, found)) && Matches(sources, found)
    requires c.actor !in found.sources && (Nominal(a, c) || (a.name in found.sources && Led(t, sources, start, a.name)))
    ensures Led(t, sources, start, c.actor)
  {
    var p := BirthLeads(t, sources, start, a, c);
    assert sources[c.actor] == Gives(sources, a);
  }

  // ------------------------------------------------------------ the two stages

  /** What the cold members start with. */
  ghost function LateStart(t: Topology, sources: map<Name, set<Parameter>>): Types {
    Types(map x | x in sources && (Early(t, x) || x in MemberNames(t)) :: sources[x], map[])
  }

  ghost predicate LedTo(t: Topology, sources: map<Name, set<Parameter>>, x: Name) {
    Led(t, sources, if Early(t, x) then SeedTyped(t) else LateStart(t, sources), x)
  }

  ghost predicate AllLed(t: Topology, sources: map<Name, set<Parameter>>, found: Types) {
    (forall x :: x in found.sources ==> LedTo(t, sources, x)) && Staged(t, found)
  }

  ghost predicate AllUniform(t: Topology) {
    forall a :: a in t.actors ==> Uniform(a)
  }

  /** A class of the start needs nothing before it. */
  lemma StartIsLed(t: Topology, sources: map<Name, set<Parameter>>, start: Types, x: Name)
    requires x in sources && x in start.sources
    ensures Led(t, sources, start, x)
  {
    assert Leads(t, sources, start, [], sources[x], x);
  }

  lemma BirthKeepsLed(t: Topology, sources: map<Name, set<Parameter>>, a: ActorClass, c: Child, found: Types)
    requires AllUniform(t) && AllLed(t, sources, found) && a in t.actors && c in a.children
    requires Matches(sources, found) && Matches(sources, BirthTyped(a, c, found))
    ensures AllLed(t, sources, BirthTyped(a, c, found))
  {
    if c.actor !in found.sources && (Nominal(a, c) || a.name in found.sources) {
      if Nominal(a, c) || Early(t, a.name) {
        BirthIsEarly(t, a, c);
        BirthIsLed(t, sources, SeedTyped(t), a, c, found);
      } else {
        LateBirthIsLed(t, sources, a, c, found);
      }
    }
  }

  lemma LateBirthIsLed(t: Topology, sources: map<Name, set<Parameter>>, a: ActorClass, c: Child, found: Types)
    requires AllUniform(t) && AllLed(t, sources, found) && a in t.actors && c in a.children
    requires Matches(sources, found) && Matches(sources, BirthTyped(a, c, found))
    requires c.actor !in found.sources && !Nominal(a, c) && a.name in found.sources && !Early(t, a.name)
    ensures !Early(t, c.actor) && LedTo(t, sources, c.actor) && Staged(t, BirthTyped(a, c, found))
  {
    BirthIsLed(t, sources, LateStart(t, sources), a, c, found);
  }

  /** The members that are new are typed by their own parameters. */
  lemma {:induction false} NewMembers(t: Topology, n: nat, found: Types)
    requires n <= |t.members|
    ensures forall x :: x in MembersTyped(t, n, found).sources && x !in found.sources ==>
      x in MemberNames(t) && MembersTyped(t, n, found).sources[x] == {MemberActor(x)}
  {
    if n > 0 {
      NewMembers(t, n - 1, found);
      assert t.members[n - 1] in t.members;
    }
  }

  /** When no birth is left: the early classes, and then the members. */
  ghost predicate Halfway(t: Topology, found: Types) {
    && (forall x :: x in found.sources <==> Early(t, x) || x in MemberNames(t))
    && forall x :: Cold(t, x) ==> found.sources[x] == {MemberActor(x)}
  }

  lemma MembersAreHalfway(t: Topology, found: Types)
    requires PassTyped(t, |t.actors|, found) == found && Anchors(t) + {ROOT} <= found.sources.Keys
    requires forall x :: x in found.sources ==> Early(t, x)
    ensures Halfway(t, MembersTyped(t, |t.members|, found))
  {
    forall x | Early(t, x) ensures x in found.sources {
      EarlyIsTyped(t, found, x);
    }
    MembersComplete(t, found);
  }

  lemma MembersComplete(t: Topology, found: Types)
    requires forall x :: x in found.sources ==> Early(t, x)
    requires forall x :: Early(t, x) ==> x in found.sources
    ensures Halfway(t, MembersTyped(t, |t.members|, found))
  {
    NewMembers(t, |t.members|, found);
    MembersExtend(t, |t.members|, found);
    forall x | x in MemberNames(t) ensures x in MembersTyped(t, |t.members|, found).sources {
      MembersAreTyped(t, found, x);
    }
  }

  lemma MembersKeepLed(t: Topology, sources: map<Name, set<Parameter>>, found: Types)
    requires PassTyped(t, |t.actors|, found) == found && Anchors(t) + {ROOT} <= found.sources.Keys
    requires AllLed(t, sources, found) && Matches(sources, MembersTyped(t, |t.members|, found))
    ensures AllLed(t, sources, MembersTyped(t, |t.members|, found))
  {
    var next := MembersTyped(t, |t.members|, found);
    NewMembers(t, |t.members|, found);
    MembersExtend(t, |t.members|, found);
    forall x | x in next.sources ensures LedTo(t, sources, x) {
      if x !in found.sources {
        UntypedIsCold(t, found, x);
        StartIsLed(t, sources, LateStart(t, sources), x);
      }
    }
    MembersKeepStage(t, found);
  }

  lemma MembersKeepStage(t: Topology, found: Types)
    requires PassTyped(t, |t.actors|, found) == found && Anchors(t) + {ROOT} <= found.sources.Keys && Staged(t, found)
    ensures Staged(t, MembersTyped(t, |t.members|, found))
  {
    if forall x :: x in found.sources ==> Early(t, x) {
      MembersAreHalfway(t, found);
    } else {
      MembersExtend(t, |t.members|, found);
    }
  }

  lemma SeedIsEarly(t: Topology)
    ensures forall x :: x in SeedTyped(t).sources ==> Early(t, x)
    ensures Anchors(t) + {ROOT} <= SeedTyped(t).sources.Keys
  {
    forall x | x in SeedTyped(t).sources ensures Early(t, x) {
      Stay(EdgesOf(t), x);
    }
  }

  lemma SeedIsLed(t: Topology, sources: map<Name, set<Parameter>>)
    requires Matches(sources, SeedTyped(t))
    ensures AllLed(t, sources, SeedTyped(t))
  {
    SeedIsEarly(t);
    forall x | x in SeedTyped(t).sources ensures LedTo(t, sources, x) {
      StartIsLed(t, sources, SeedTyped(t), x);
    }
  }

  lemma AnchorsStay(t: Topology, k: nat)
    ensures Anchors(t) + {ROOT} <= RoundsTyped(t, k, SeedTyped(t)).sources.Keys
  {
    SeedIsEarly(t);
    RoundsExtend(t, 0, k);
  }

  /** What the rounds keep: classes typed with the given sources are led to. */
  ghost predicate LedIfMatched(t: Topology, sources: map<Name, set<Parameter>>, found: Types) {
    Anchors(t) + {ROOT} <= found.sources.Keys && (Matches(sources, found) ==> AllLed(t, sources, found))
  }

  lemma BirthStaysLed(t: Topology, sources: map<Name, set<Parameter>>, a: ActorClass, c: Child, found: Types)
    requires AllUniform(t) && LedIfMatched(t, sources, found) && a in t.actors && c in a.children
    ensures LedIfMatched(t, sources, BirthTyped(a, c, found))
  {
    if Matches(sources, BirthTyped(a, c, found)) {
      assert Matches(sources, found);
      BirthKeepsLed(t, sources, a, c, found);
    }
  }

  lemma MembersStayLed(t: Topology, sources: map<Name, set<Parameter>>, found: Types)
    requires LedIfMatched(t, sources, found) && PassTyped(t, |t.actors|, found) == found
    ensures LedIfMatched(t, sources, MembersTyped(t, |t.members|, found))
  {
    MembersExtend(t, |t.members|, found);
    if Matches(sources, MembersTyped(t, |t.members|, found)) {
      MembersKeepLed(t, sources, found);
    }
  }

  /** Every class of a derivation can be led to from its stage. */
  lemma DerivationIsLed(t: Topology, found: Types)
    requires AllUniform(t) && IsDerivation(t, found)
    ensures AllLed(t, found.sources, found)
  {
    var inv: Types -> bool := (e: Types) => LedIfMatched(t, found.sources, e);
    forall a, c, e | a in t.actors && c in a.children && inv(e) ensures inv(BirthTyped(a, c, e)) {
      BirthStaysLed(t, found.sources, a, c, e);
    }
    forall e | inv(e) && PassTyped(t, |t.actors|, e) == e ensures inv(MembersTyped(t, |t.members|, e)) {
      MembersStayLed(t, found.sources, e);
    }
    SeedIsEarly(t);
    if Matches(found.sources, SeedTyped(t)) {
      SeedIsLed(t, found.sources);
    }
    DerivationKeeps(t, inv, found);
  }

  lemma PassStaysEarly(t: Topology, found: Types)
    requires forall x :: x in found.sources ==> Early(t, x)
    ensures forall x :: x in PassTyped(t, |t.actors|, found).sources ==> Early(t, x)
  {
    var inv: Types -> bool := (e: Types) => forall x :: x in e.sources ==> Early(t, x);
    forall a, c, e | a in t.actors && c in a.children && inv(e) ensures inv(BirthTyped(a, c, e)) {
      if Nominal(a, c) || Early(t, a.name) {
        BirthIsEarly(t, a, c);
      }
    }
    PassKeepsAll(t, inv, |t.actors|, found);
  }

  /** A round that changes something comes before the last. */
  lemma ChangesEarlier(t: Topology, found: Types, j: nat, at: nat)
    requires IsDerivationAt(t, found, j) && RoundsTyped(t, at + 1, SeedTyped(t)) != RoundsTyped(t, at, SeedTyped(t))
    ensures at < j
  {
    if at >= j {
      RoundsStay(t, j, at - j, found);
    }
  }

  /** From an early stage a round gets halfway, or on with the early classes. */
  lemma EarlyRound(t: Topology, here: Types)
    requires Anchors(t) + {ROOT} <= here.sources.Keys && forall x :: x in here.sources ==> Early(t, x)
    ensures Halfway(t, RoundTyped(t, here)) ||
      (RoundTyped(t, here) != here && forall x :: x in RoundTyped(t, here).sources ==> Early(t, x))
  {
    PassGrows(t, |t.actors|, here);
    if PassTyped(t, |t.actors|, here).sources.Keys == here.sources.Keys {
      MembersAreHalfway(t, here);
    } else {
      PassStaysEarly(t, here);
    }
  }

  /** Every derivation passes the middle. */
  lemma {:induction false} FindHalfway(t: Topology, found: Types, j: nat, at: nat) returns (k: nat)
    requires IsDerivationAt(t, found, j)
    requires forall x :: x in RoundsTyped(t, at, SeedTyped(t)).sources ==> Early(t, x)
    ensures Halfway(t, RoundsTyped(t, k, SeedTyped(t)))
    decreases j - at
  {
    AnchorsStay(t, at);
    EarlyRound(t, RoundsTyped(t, at, SeedTyped(t)));
    k := at + 1;
    if !Halfway(t, RoundsTyped(t, at + 1, SeedTyped(t))) {
      ChangesEarlier(t, found, j, at);
      k := FindHalfway(t, found, j, at + 1);
    }
  }

  lemma HalfwayIsPassed(t: Topology, found: Types) returns (k: nat)
    requires IsDerivation(t, found)
    ensures Halfway(t, RoundsTyped(t, k, SeedTyped(t)))
  {
    var j: nat :| IsDerivationAt(t, found, j);
    SeedIsEarly(t);
    k := FindHalfway(t, found, j, 0);
  }

  // ------------------------------------------------------------ another order

  /** The same declarations, each class once. */
  ghost predicate Reorders(t: Topology, u: Topology) {
    SameDeclarations(t, u) && forall i, j :: 0 <= i < j < |u.actors| ==> u.actors[i].name != u.actors[j].name
  }

  function Without(actors: seq<ActorClass>, p: seq<ActorClass>): seq<ActorClass> {
    if actors == [] then []
    else (if actors[0] in p then [] else [actors[0]]) + Without(actors[1..], p)
  }

  lemma {:induction false} WithoutHolds(actors: seq<ActorClass>, p: seq<ActorClass>)
    requires Distinct(actors)
    ensures forall a :: a in Without(actors, p) <==> a in actors && a !in p
    ensures Distinct(Without(actors, p))
  {
    if actors != [] {
      WithoutHolds(actors[1..], p);
    }
  }

  lemma DistinctAppend(p: seq<ActorClass>, q: seq<ActorClass>)
    requires Distinct(p) && Distinct(q) && forall a :: a in q ==> a !in p
    ensures Distinct(p + q)
  {
    forall i, j | 0 <= i < j < |p + q| ensures (p + q)[i] != (p + q)[j] {
      if i < |p| <= j {
        assert q[j - |p|] in q && p[i] in p;
      }
    }
  }

  function Reordered(t: Topology, p: seq<ActorClass>): Topology {
    t.(actors := p + Without(t.actors, p))
  }

  lemma ReorderedReorders(t: Topology, p: seq<ActorClass>)
    requires Connected(t) && Distinct(p) && forall a :: a in p ==> a in t.actors
    ensures Reorders(t, Reordered(t, p)) && Connected(Reordered(t, p))
  {
    var u := Reordered(t, p);
    assert Distinct(t.actors);
    WithoutHolds(t.actors, p);
    DistinctAppend(p, Without(t.actors, p));
    assert SameDeclarations(t, u);
    forall i, j | 0 <= i < j < |u.actors| ensures u.actors[i].name != u.actors[j].name {
      assert u.actors[i] in t.actors && u.actors[j] in t.actors;
    }
    assert Declared(u) == Declared(t) && EdgesOf(u) == EdgesOf(t);
  }

  /** What is declared first decides. */
  lemma FrontDecides(t: Topology, u: Topology, sources: map<Name, set<Parameter>>, start: Types, p: seq<ActorClass>,
                     v: set<Parameter>, x: Name, k: nat, b: Types)
    requires AllUniform(t) && Leads(t, sources, start, p, v, x) && Matches(sources, start) && x !in start.sources
    requires p <= u.actors && IsDerivation(u, b) && RoundsTyped(u, k, SeedTyped(u)).sources == start.sources
    ensures x in b.sources && b.sources[x] == v
  {
    var here := RoundsTyped(u, k, SeedTyped(u));
    FrontComesFirst(u, here, start, p);
    FrontHandsOn(sources, start, v, p);
    DerivationExtends(u, b, k + 1);
  }

  lemma FrontComesFirst(u: Topology, here: Types, start: Types, p: seq<ActorClass>)
    requires p <= u.actors && here.sources == start.sources
    ensures Extends(FrontTyped(p, start), RoundTyped(u, here))
  {
    FrontIsPass(u, |p|, here);
    assert u.actors[..|p|] == p;
    SameFront(p, here, start);
    RoundExtends(u, |p|, here);
  }

  /** Every order derives these sources. */
  ghost predicate OrderFree(t: Topology, sources: map<Name, set<Parameter>>) {
    forall u, b :: Reorders(t, u) && IsDerivation(u, b) ==> b.sources == sources
  }

  // ------------------------------------------------------------ exactly when

  /** In an order-free topology the parent, led to from `start`, hands on what the child has. */
  lemma FreeBirth(t: Topology, found: Types, start: Types, a: ActorClass, c: Child)
    requires Connected(t) && AllUniform(t) && OrderFree(t, found.sources) && a in t.actors && c in a.children
    requires a.roleParent.Some? || Led(t, found.sources, start, a.name)
    requires Matches(found.sources, start) && c.actor !in start.sources
    requires start == SeedTyped(t) || start == LateStart(t, found.sources)
    ensures c.actor in found.sources && found.sources[c.actor] == Gives(found.sources, a)
  {
    var p := BirthLeads(t, found.sources, start, a, c);
    ReorderedReorders(t, p);
    var u := Reordered(t, p);
    var b := DerivationExists(u);
    var k := 0;
    if start == SeedTyped(t) {
      SameSeed(t, u);
    } else {
      k := HalfwayIsShared(t, u, b);
    }
    FrontDecides(t, u, found.sources, start, p, Gives(found.sources, a), c.actor, k, b);
  }

  lemma SameSeed(t: Topology, u: Topology)
    requires SameDeclarations(t, u)
    ensures SeedTyped(u) == SeedTyped(t) && RoundsTyped(u, 0, SeedTyped(u)) == SeedTyped(t)
  {
    assert Anchors(t) == Anchors(u);
  }

  /** Halfway is the same in every order. */
  lemma HalfwayIsShared(t: Topology, u: Topology, b: Types) returns (k: nat)
    requires SameDeclarations(t, u) && IsDerivation(u, b)
    ensures RoundsTyped(u, k, SeedTyped(u)).sources == LateStart(t, b.sources).sources
  {
    k := HalfwayIsPassed(u, b);
    DerivationExtends(u, b, k);
    SharedStages(t, u);
  }

  lemma EarlyBirthAgrees(t: Topology, found: Types, a: ActorClass, c: Child)
    requires Connected(t) && AllUniform(t) && IsDerivation(t, found) && OrderFree(t, found.sources)
    requires a in t.actors && c in a.children && c.actor !in Anchors(t) + {ROOT}
    requires Nominal(a, c) || (Early(t, a.name) && LedTo(t, found.sources, a.name))
    ensures c.actor in found.sources && found.sources[c.actor] == Gives(found.sources, a)
  {
    DerivationExtends(t, found, 0);
    assert Matches(found.sources, SeedTyped(t));
    FreeBirth(t, found, SeedTyped(t), a, c);
  }

  lemma LateBirthAgrees(t: Topology, found: Types, a: ActorClass, c: Child)
    requires Connected(t) && AllUniform(t) && OrderFree(t, found.sources)
    requires a in t.actors && c in a.children && !Early(t, a.name) && LedTo(t, found.sources, a.name)
    requires !Early(t, c.actor) && c.actor !in MemberNames(t)
    ensures c.actor in found.sources && found.sources[c.actor] == Gives(found.sources, a)
  {
    FreeBirth(t, found, LateStart(t, found.sources), a, c);
  }

  lemma FreeBirthAgrees(t: Topology, found: Types, a: ActorClass, c: Child)
    requires Connected(t) && AllUniform(t) && IsDerivation(t, found) && OrderFree(t, found.sources)
    requires a in t.actors && c in a.children && a.name in found.sources && LedTo(t, found.sources, a.name)
    ensures BirthAgrees(t, found.sources, a, c)
  {
    if c.actor !in Anchors(t) + {ROOT} && !Cold(t, c.actor) && !ComesLate(t, a, c) {
      if Nominal(a, c) || Early(t, a.name) {
        EarlyBirthAgrees(t, found, a, c);
      } else {
        LateBirthAgrees(t, found, a, c);
      }
      assert Gives(found.sources, a) == Inherits(found.sources, a, c) by {
        assert Uniform(a);
      }
    }
  }

  lemma SeedsAreDeclared(t: Topology)
    requires Connected(t)
    ensures EarlySeeds(t) + MemberNames(t) <= Declared(t)
  {
    forall a, c | a in t.actors && c in a.children ensures c.actor in Declared(t) {
      assert (a.name, c.actor) in EdgesOf(t);
    }
  }

  /** The classes that are no births have their sources in any derivation. */
  lemma SeedsAreConsistent(t: Topology, found: Types)
    requires IsDerivation(t, found)
    ensures forall x :: x in Anchors(t) ==> x in found.sources && found.sources[x] == {}
    ensures ROOT !in Anchors(t) ==> ROOT in found.sources && found.sources[ROOT] == {ExecutedRoot}
  {
    DerivationExtends(t, found, 0);
    assert Extends(SeedTyped(t), found);
    forall x | x in Anchors(t) ensures x in found.sources && found.sources[x] == {} {
      assert x in SeedTyped(t).sources;
    }
    assert ROOT in SeedTyped(t).sources;
  }

  lemma ColdIsConsistent(t: Topology, found: Types)
    requires IsDerivation(t, found)
    ensures ColdAgrees(t, found.sources)
  {
    var k := HalfwayIsPassed(t, found);
    var here := RoundsTyped(t, k, SeedTyped(t));
    DerivationExtends(t, found, k);
    forall x | Cold(t, x) ensures x in found.sources && found.sources[x] == {MemberActor(x)} {
      assert x in here.sources;
    }
  }

  lemma FreeIsConsistent(t: Topology, found: Types)
    requires Connected(t) && AllUniform(t) && IsDerivation(t, found) && OrderFree(t, found.sources)
    ensures Consistent(t, found.sources)
  {
    DerivationIsTotal(t, found);
    SeedsAreDeclared(t);
    SeedsAreConsistent(t, found);
    ColdIsConsistent(t, found);
    AllBirthsAgree(t, found);
  }

  lemma AllBirthsAgree(t: Topology, found: Types)
    requires Connected(t) && AllUniform(t) && IsDerivation(t, found) && OrderFree(t, found.sources)
    requires found.sources.Keys == Declared(t)
    ensures forall a, c :: a in t.actors && c in a.children ==> BirthAgrees(t, found.sources, a, c)
  {
    DerivationIsLed(t, found);
    forall a, c | a in t.actors && c in a.children ensures BirthAgrees(t, found.sources, a, c) {
      assert a.name in Declared(t);
      FreeBirthAgrees(t, found, a, c);
    }
  }

  lemma ReordersIsConnected(t: Topology, u: Topology)
    requires Connected(t) && Reorders(t, u)
    ensures Connected(u) && Declared(u) == Declared(t)
  {
    assert Declared(u) == Declared(t) && EdgesOf(u) == EdgesOf(t);
    assert Seeds(u) == Seeds(t);
  }

  lemma ConsistentOrder(t: Topology, found: Types, u: Topology, b: Types)
    requires Consistent(t, found.sources) && found.sources.Keys == Declared(t)
    requires SameDeclarations(t, u) && IsDerivation(u, b) && b.sources.Keys == Declared(t)
    ensures b.sources == found.sources
  {
    ConsistencyIsShared(t, u, found.sources);
    ConsistentIsDerived(u, found.sources, b);
  }

  lemma ConsistentIsFree(t: Topology, found: Types)
    requires Connected(t) && IsDerivation(t, found) && Consistent(t, found.sources)
    ensures OrderFree(t, found.sources)
  {
    DerivationIsTotal(t, found);
    forall u, b | Reorders(t, u) && IsDerivation(u, b) ensures b.sources == found.sources {
      ReordersIsConnected(t, u);
      DerivationIsTotal(u, b);
      ConsistentOrder(t, found, u, b);
    }
  }

  lemma WellFormedIsUniform(t: Topology, spell: Name -> Name)
    requires WellFormed(t, spell)
    ensures AllUniform(t)
  {
    forall a | a in t.actors ensures Uniform(a) {
      LawfulIsUniform(a);
    }
  }

  /** The births that can come in time agree on some sources. */
  ghost predicate BirthsAgree(t: Topology) {
    exists sources: map<Name, set<Parameter>> :: sources.Keys == Declared(t) && Consistent(t, sources)
  }

  /** Exact: every order of well-formed declarations derives the same sources if and only if
      all births that can come in time agree. */
  lemma OrderFreeIff(t: Topology, spell: Name -> Name, found: Types)
    requires WellFormed(t, spell) && IsDerivation(t, found)
    ensures OrderFree(t, found.sources) <==> BirthsAgree(t)
  {
    WellFormedIsConnected(t, spell);
    WellFormedIsUniform(t, spell);
    DerivationIsTotal(t, found);
    if OrderFree(t, found.sources) {
      FreeIsConsistent(t, found);
    }
    if BirthsAgree(t) {
      AgreedIsDerived(t, found);
      ConsistentIsFree(t, found);
    }
  }

  /** What the births agree on is what is derived. */
  lemma AgreedIsDerived(t: Topology, found: Types)
    requires BirthsAgree(t) && IsDerivation(t, found) && found.sources.Keys == Declared(t)
    ensures Consistent(t, found.sources)
  {
    var sources: map<Name, set<Parameter>> :| sources.Keys == Declared(t) && Consistent(t, sources);
    ConsistentIsDerived(t, sources, found);
    assert sources == found.sources;
  }
}
