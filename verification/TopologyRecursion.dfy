/** The parameterized schemas, the recursion check on them, and the whole validation. */
module TopologyRecursion {
  import opened Basics
  import opened Graphs
  import opened TopologyModel
  import opened TopologyChecks
  import opened TopologyInference
  import opened TopologyTyping

  // ---------------------------------------------------------------- schemas

  method DependencyPass(t: Topology, schemas: set<Name>, ghost base: set<Name>) returns (grown: set<Name>)
    requires schemas <= Declared(t) && forall x :: x in schemas ==> ReachesSome(EdgesOf(t), x, base)
    ensures schemas <= grown <= Declared(t) && forall x :: x in grown ==> ReachesSome(EdgesOf(t), x, base)
    ensures grown == schemas ==> BackClosed(EdgesOf(t), schemas)
  {
    grown := schemas;
    for i := 0 to |t.actors|
      invariant schemas <= grown <= Declared(t)
      invariant forall x :: x in grown ==> ReachesSome(EdgesOf(t), x, base)
      invariant forall j, c :: 0 <= j < i && c in t.actors[j].children && c.actor in schemas ==> t.actors[j].name in grown
    {
      var a := t.actors[i];
      if exists c :: c in a.children && c.actor in grown {
        var c :| c in a.children && c.actor in grown;
        ghost var b :| b in base && Reaches(EdgesOf(t), c.actor, b);
        Prepend(EdgesOf(t), a.name, c.actor, b);
        grown := grown + {a.name};
      }
    }
  }

  /** The least set with the dependent creators that is closed under "has such a child":
      exactly the classes that reach a dependent creator. */
  method SchemaDependencies(t: Topology, dependent: set<Name>) returns (schemas: set<Name>)
    ensures forall x :: x in schemas <==> DependsOn(t, dependent, x)
    ensures schemas <= Declared(t)
  {
    var base := DependentBase(t, dependent);
    schemas := base;
    forall x | x in base ensures ReachesSome(EdgesOf(t), x, base) {
      Stay(EdgesOf(t), x);
    }
    while true
      invariant base <= schemas <= Declared(t)
      invariant forall x :: x in schemas ==> ReachesSome(EdgesOf(t), x, base)
      decreases |Declared(t) - schemas|
    {
      var before := schemas;
      schemas := DependencyPass(t, schemas, base);
      if schemas == before {
        BackClosedIsReaching(EdgesOf(t), base, schemas);
        return;
      }
      LessRemains(Declared(t), before, schemas);
    }
  }

  lemma SchemasAreLeast(t: Topology, dependent: set<Name>, schemas: set<Name>, other: set<Name>)
    requires forall x :: x in schemas <==> DependsOn(t, dependent, x)
    requires DependentBase(t, dependent) <= other && BackClosed(EdgesOf(t), other)
    ensures DependentBase(t, dependent) <= schemas && BackClosed(EdgesOf(t), schemas) && schemas <= other
  {
    forall x | x in DependentBase(t, dependent) ensures DependsOn(t, dependent, x) {
      Stay(EdgesOf(t), x);
    }
    forall a, b | (a, b) in EdgesOf(t) && b in schemas ensures a in schemas {
      var c :| c in DependentBase(t, dependent) && Reaches(EdgesOf(t), b, c);
      Prepend(EdgesOf(t), a, b, c);
    }
    forall x | x in schemas ensures x in other {
      var b :| b in DependentBase(t, dependent) && Reaches(EdgesOf(t), x, b);
      var p :| PathBetween(EdgesOf(t), p, x, b);
      BackClosedCovers(EdgesOf(t), other, p);
    }
  }

  // -------------------------------------------------------------- recursion

  /** What the search from `start` keeps while it has found no way back. */
  ghost predicate Searching(edges: Edges, start: Name, visited: set<Name>, waiting: set<Name>) {
    && start in visited + waiting
    && (forall a, b :: (a, b) in edges && a in visited ==> b != start && (b in visited || b in waiting))
    && forall x :: x in visited + waiting ==> Reaches(edges, start, x)
  }

  lemma SearchGrows(edges: Edges, start: Name, visited: set<Name>, waiting: set<Name>, a: Name, targets: set<Name>)
    requires Searching(edges, start, visited, waiting + {a})
    requires forall b :: b in targets <==> (a, b) in edges
    requires start !in targets
    ensures Searching(edges, start, visited + {a}, waiting + targets)
  {
    assert a in visited + (waiting + {a});
    forall b | b in targets ensures Reaches(edges, start, b) {
      Extend(edges, start, a, b);
    }
  }

  lemma WayBack(edges: Edges, start: Name, a: Name)
    requires Reaches(edges, start, a) && (a, start) in edges
    ensures OnCycle(edges, start)
  {
    if a == start {
      Stay(edges, start);
    } else {
      var next := FirstStep(edges, start, a);
      Extend(edges, next, a, start);
    }
  }

  lemma NoWayBack(edges: Edges, start: Name, visited: set<Name>)
    requires Searching(edges, start, visited, {})
    ensures !OnCycle(edges, start)
  {
    if OnCycle(edges, start) {
      var y :| (start, y) in edges && Reaches(edges, y, start);
      var p :| PathBetween(edges, p, y, start);
      assert Path(edges, p[..|p| - 1]);
      ClosedCovers(edges, visited, p[..|p| - 1]);
      assert false;
    }
  }

  /** The parameterized children of one class, unless one of them is the start. */
  method ExpandWithin(t: Topology, classes: map<Name, ActorClass>, schemas: set<Name>, start: Name, a: ActorClass, rest: seq<ActorClass>)
    returns (found: bool, pending: seq<ActorClass>)
    requires Indexes(t, classes) && classes.Keys == Declared(t) && schemas <= Declared(t)
    requires a in t.actors && a.name in schemas && start in schemas
    requires forall x :: x in rest ==> x in t.actors && x.name in schemas
    ensures found ==> (a.name, start) in Induced(EdgesOf(t), schemas)
    ensures !found ==>
      && (forall x :: x in pending ==> x in t.actors && x.name in schemas)
      && NamesOf(pending) == NamesOf(rest) + Targets(a) * schemas && start !in Targets(a)
  {
    pending := rest;
    ghost var targets: set<Name> := {};
    for i := 0 to |a.children|
      invariant forall x :: x in pending ==> x in t.actors && x.name in schemas
      invariant forall x :: x in targets <==> exists j :: 0 <= j < i && a.children[j].actor == x
      invariant NamesOf(pending) == NamesOf(rest) + targets * schemas && start !in targets
    {
      var name := a.children[i].actor;
      EdgeOf(t, a, i);
      if name == start {
        return true, pending;
      }
      if name in schemas {
        NamesAppend(pending, classes[name]);
        pending := pending + [classes[name]];
      }
      targets := targets + {name};
    }
    assert targets == Targets(a);
    found := false;
  }

  lemma InducedTargets(t: Topology, schemas: set<Name>, a: ActorClass)
    requires a in t.actors && a.name in schemas && forall x, y :: x in t.actors && y in t.actors && x.name == y.name ==> x == y
    ensures forall b :: b in Targets(a) * schemas <==> (a.name, b) in Induced(EdgesOf(t), schemas)
  {
    TargetsAreEdges(t, a);
  }

  method SearchNext(t: Topology, classes: map<Name, ActorClass>, schemas: set<Name>, start: Name, pending: seq<ActorClass>, visited: set<Name>)
    returns (found: bool, rest: seq<ActorClass>, next: set<Name>)
    requires Indexes(t, classes) && classes.Keys == Declared(t) && schemas <= Declared(t) && start in schemas
    requires pending != [] && forall x :: x in pending ==> x in t.actors && x.name in schemas
    requires Searching(Induced(EdgesOf(t), schemas), start, visited, NamesOf(pending))
    ensures found ==> OnCycle(Induced(EdgesOf(t), schemas), start)
    ensures !found ==>
      && (forall x :: x in rest ==> x in t.actors && x.name in schemas)
      && Searching(Induced(EdgesOf(t), schemas), start, next, NamesOf(rest))
    ensures !found ==> (next == visited && |rest| < |pending|) || (exists x :: x in schemas && x !in visited && next == visited + {x})
  {
    var a := pending[|pending| - 1];
    rest, next := pending[..|pending| - 1], visited;
    ghost var before := rest;
    assert pending == before + [a] && a in pending;
    NamesAppend(before, a);
    if a.name in visited {
      return false, rest, next;
    }
    found, rest := ExpandWithin(t, classes, schemas, start, a, rest);
    if found {
      assert a.name in visited + NamesOf(pending);
      WayBack(Induced(EdgesOf(t), schemas), start, a.name);
    } else {
      InducedTargets(t, schemas, a);
      SearchGrows(Induced(EdgesOf(t), schemas), start, visited, NamesOf(before), a.name, Targets(a) * schemas);
      next := visited + {a.name};
    }
  }

  /** The search from one class finds a way back exactly when the class is on a cycle. */
  method FindWayBack(t: Topology, classes: map<Name, ActorClass>, schemas: set<Name>, start: ActorClass) returns (found: bool)
    requires Indexes(t, classes) && classes.Keys == Declared(t) && schemas <= Declared(t)
    requires start in t.actors && start.name in schemas
    ensures found <==> OnCycle(Induced(EdgesOf(t), schemas), start.name)
  {
    var pending := [start];
    var visited: set<Name> := {};
    Stay(Induced(EdgesOf(t), schemas), start.name);
    assert NamesOf(pending) == {start.name};
    while pending != []
      invariant forall x :: x in pending ==> x in t.actors && x.name in schemas
      invariant Searching(Induced(EdgesOf(t), schemas), start.name, visited, NamesOf(pending))
      decreases |schemas - visited|, |pending|
    {
      var next;
      ghost var before := visited;
      found, pending, next := SearchNext(t, classes, schemas, start.name, pending, visited);
      if found {
        return;
      }
      visited := next;
      if visited != before {
        ghost var x :| x in schemas && x !in before && visited == before + {x};
        SmallerSubset(schemas - visited, schemas - before, x);
      }
    }
    NoWayBack(Induced(EdgesOf(t), schemas), start.name, visited);
    found := false;
  }

  lemma CycleIsDeclared(t: Topology, schemas: set<Name>, x: Name)
    requires OnCycle(Induced(EdgesOf(t), schemas), x)
    ensures x in Declared(t)
  {
    var y :| (x, y) in Induced(EdgesOf(t), schemas);
  }

  /** The check is exact: some class has a way back if and only if the graph induced on the
      parameterized classes has a cycle. */
  method FindRecursion(t: Topology, classes: map<Name, ActorClass>, schemas: set<Name>) returns (r: Option<Refusal>)
    requires Indexes(t, classes) && classes.Keys == Declared(t) && schemas <= Declared(t)
    ensures r == if Cyclic(Induced(EdgesOf(t), schemas)) then Some(RecursiveClasses) else None
  {
    for i := 0 to |t.actors|
      invariant forall j :: 0 <= j < i ==> !OnCycle(Induced(EdgesOf(t), schemas), t.actors[j].name)
    {
      if t.actors[i].name in schemas {
        var found := FindWayBack(t, classes, schemas, t.actors[i]);
        if found {
          return Some(RecursiveClasses);
        }
      }
    }
    forall x | OnCycle(Induced(EdgesOf(t), schemas), x) ensures x in Declared(t) {
      CycleIsDeclared(t, schemas, x);
    }
    return None;
  }

  // ------------------------------------------------------- whole validation

  /** Every class has a derivation, and `schemas` are the classes it makes parameterized. */
  ghost predicate Inferred(t: Topology, found: Types, stamps: map<Name, nat>, now: nat, schemas: set<Name>) {
    && Typing(t, found.sources, found.selected, stamps, now) && found.sources.Keys == Declared(t) && IsDerivation(t, found)
    && forall x :: x in schemas <==> DependsOn(t, Dependents(found.sources), x)
  }

  /** Classes that would be parameterized if exactly these depended on a parameter. */
  ghost function SchemasWith(t: Topology, dependent: set<Name>): set<Name> {
    set x | x in Declared(t) && DependsOn(t, dependent, x)
  }

  ghost predicate CyclicWith(t: Topology, dependent: set<Name>) {
    Cyclic(Induced(EdgesOf(t), SchemasWith(t, dependent)))
  }

  ghost function SchemasOf(t: Topology, found: Types): set<Name> {
    SchemasWith(t, Dependents(found.sources))
  }

  /** The derivation of this declaration makes a cycle of parameterized classes. */
  ghost predicate Recursive(t: Topology) {
    exists found :: IsDerivation(t, found) && CyclicWith(t, Dependents(found.sources))
  }

  lemma RecursiveIff(t: Topology, found: Types, stamps: map<Name, nat>, now: nat, schemas: set<Name>)
    requires Inferred(t, found, stamps, now, schemas) && schemas <= Declared(t)
    ensures Recursive(t) <==> Cyclic(Induced(EdgesOf(t), schemas))
  {
    assert SchemasOf(t, found) == schemas;
    forall other | IsDerivation(t, other) ensures other == found {
      OneDerivation(t, other, found);
    }
  }

  method CheckInference(t: Topology, classes: map<Name, ActorClass>, root: ActorClass)
    returns (r: Option<Refusal>, ghost found: Types, ghost stamps: map<Name, nat>, ghost now: nat, ghost schemas: set<Name>)
    requires Indexes(t, classes) && classes.Keys == Declared(t) && Connected(t) && root in t.actors && root.name == ROOT
    ensures !RootOk(t, root) ==> r == Some(OpaqueRootWithBirths)
    ensures RootOk(t, root) ==>
      && Inferred(t, found, stamps, now, schemas) && schemas <= Declared(t)
      && r == if Cyclic(Induced(EdgesOf(t), schemas)) then Some(RecursiveClasses) else None
  {
    found, stamps, now, schemas := Types(map[], map[]), map[], 0, {};
    if root.behavior.None? && (t.members != [] || |root.children| > 1) {
      r := Some(OpaqueRootWithBirths);
      return;
    }
    var selected;
    ghost var anchors;
    r, selected, anchors := IncomingOccurrences(t);
    if r.None? {
      var types, parameterized;
      types, stamps, now := ActorTypes(t, root);
      parameterized := SchemaDependencies(t, Dependents(types.sources));
      r := FindRecursion(t, classes, parameterized);
      found, schemas := types, parameterized;
    }
  }

  lemma AllVisited(t: Topology, visited: set<Name>)
    requires forall x :: x in visited <==> ReachedFrom(EdgesOf(t), Seeds(t), x)
    requires Closed(EdgesOf(t), visited) && visited == Declared(t)
    ensures ChildrenDeclared(t) && AllReachable(t)
  {
  }

  method FindUnvisited(t: Topology, visited: set<Name>) returns (r: Option<Refusal>)
    ensures r == if Declared(t) <= visited then None else Some(Unreachable)
  {
    for i := 0 to |t.actors|
      invariant forall j :: 0 <= j < i ==> t.actors[j].name in visited
    {
      if t.actors[i].name !in visited {
        assert t.actors[i] in t.actors;
        return Some(Unreachable);
      }
    }
    return None;
  }

  /** Reachability of every class from the collected roots. */
  method CheckReach(t: Topology, classes: map<Name, ActorClass>, pending: seq<ActorClass>) returns (r: Option<Refusal>)
    requires Indexes(t, classes) && classes.Keys == Declared(t)
    requires NamesOf(pending) == Seeds(t) && forall a :: a in pending ==> a in t.actors
    ensures r.None? <==> ChildrenDeclared(t) && AllReachable(t)
    ensures r.Some? ==> r.value.UndeclaredChild? || r.value.Unreachable?
  {
    var visited;
    r, visited := Visit(t, classes, pending);
    if r.Some? {
      return;
    }
    r := FindUnvisited(t, visited);
    if r.None? {
      AllVisited(t, visited);
    }
  }

  /** The whole graph: the root, the families and the cold members, and what they reach. */
  method CheckGraph(t: Topology, classes: map<Name, ActorClass>, root: ActorClass) returns (r: Option<Refusal>)
    requires Indexes(t, classes) && classes.Keys == Declared(t) && root in t.actors && root.name == ROOT
    ensures r.None? <==> FamiliesOk(t) && MembersOk(t, root) && ChildrenDeclared(t) && AllReachable(t)
    ensures r.Some? ==> !r.value.RecursiveClasses? && !r.value.NoBirthOccurrence?
  {
    var pending;
    r, pending := CollectFamilies(t, classes, root);
    if r.Some? {
      return;
    }
    r, pending := CollectMembers(t, classes, root, pending);
    if r.Some? {
      return;
    }
    r := CheckReach(t, classes, pending);
  }

  /** Acceptance is exact: the declaration is well formed, and the graph induced on its
      parameterized classes has no cycle; an accepted one therefore has a rank that falls
      from every parameterized class to its parameterized children. */
  method Validate(t: Topology, spell: Name -> Name)
    returns (r: Option<Refusal>, ghost found: Types, ghost stamps: map<Name, nat>, ghost now: nat, ghost schemas: set<Name>)
    ensures !WellFormed(t, spell) ==> r.Some? && !r.value.RecursiveClasses?
    ensures WellFormed(t, spell) ==>
      && Inferred(t, found, stamps, now, schemas)
      && r == if Cyclic(Induced(EdgesOf(t), schemas)) then Some(RecursiveClasses) else None
    ensures r.None? ==> exists rank :: Ranks(Induced(EdgesOf(t), schemas), rank)
    ensures r.None? <==> WellFormed(t, spell) && !Recursive(t)
    ensures r != Some(NoBirthOccurrence)
  {
    found, stamps, now, schemas := Types(map[], map[]), map[], 0, {};
    r := CheckClasses(t.actors, spell);
    if r.Some? {
      RefusedIsNotOk(t.actors, spell, r.value);
      return;
    }
    var classes := IndexClasses(t);
    if ROOT !in classes {
      r := Some(MissingRoot);
      return;
    }
    var root := classes[ROOT];
    r := CheckGraph(t, classes, root);
    if r.Some? {
      return;
    }
    r := CheckHosts(t);
    if r.Some? {
      return;
    }
    r, found, stamps, now, schemas := CheckInference(t, classes, root);
    if RootOk(t, root) {
      RecursiveIff(t, found, stamps, now, schemas);
    }
    AcyclicIffRanked(Induced(EdgesOf(t), schemas));
  }
}
