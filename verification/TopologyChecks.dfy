/** The closed-graph checks of a topology declaration: one method per check, with the
    loops and worklists of the program, each proved exact. */
module TopologyChecks {
  import opened Basics
  import opened Graphs
  import opened TopologyModel

  // ---------------------------------------------------------------- classes

  ghost predicate ClassRefused(actors: seq<ActorClass>, spell: Name -> Name, why: Refusal) {
    match why
    case RootIsNominal => exists a :: a in actors && a.name == ROOT && a.roleParent.Some?
    case NominalWithoutRole => exists a :: a in actors && a.roleParent.Some? && !HasNamedRole(a)
    case DuplicateClass => exists i, j :: 0 <= i < j < |actors| && actors[i].name == actors[j].name
    case CustodyCollision => exists i, j :: 0 <= i < j < |actors| && spell(actors[i].name) == spell(actors[j].name)
    case DuplicateChildRole => exists a :: a in actors && !DistinctNames(ChildNames(a.children))
    case UnnamedAmongMany => exists a, c :: a in actors && c in a.children && c.role.None? && |a.children| != 1
    case _ => false
  }

  method CheckChildren(a: ActorClass) returns (r: Option<Refusal>)
    ensures r.None? ==> DistinctNames(ChildNames(a.children)) && forall c :: c in a.children && c.role.None? ==> |a.children| == 1
    ensures r.Some? ==>
      || (r.value.DuplicateChildRole? && !DistinctNames(ChildNames(a.children)))
      || (r.value.UnnamedAmongMany? && exists c :: c in a.children && c.role.None? && |a.children| != 1)
  {
    var roles: set<Name> := {};
    var names := ChildNames(a.children);
    for i := 0 to |a.children|
      invariant forall x :: x in roles <==> x in names[..i]
      invariant DistinctNames(names[..i])
      invariant forall j :: 0 <= j < i && a.children[j].role.None? ==> |a.children| == 1
    {
      assert names[..i + 1] == names[..i] + [names[i]];
      if names[i] in roles {
        return Some(DuplicateChildRole);
      }
      roles := roles + {names[i]};
      if a.children[i].role.None? && |a.children| != 1 {
        return Some(UnnamedAmongMany);
      }
    }
    assert names[..|a.children|] == names;
    return None;
  }

  method CheckClasses(actors: seq<ActorClass>, spell: Name -> Name) returns (r: Option<Refusal>)
    ensures r.None? ==> ClassesOk(actors, spell)
    ensures r.Some? ==> ClassRefused(actors, spell, r.value)
  {
    var classes: set<Name> := {};
    var custody: set<Name> := {};
    for i := 0 to |actors|
      invariant ClassesOk(actors[..i], spell)
      invariant forall x :: x in classes <==> exists j :: 0 <= j < i && actors[j].name == x
      invariant forall x :: x in custody <==> exists j :: 0 <= j < i && spell(actors[j].name) == x
    {
      var a := actors[i];
      if a.roleParent.Some? {
        if a.name == ROOT {
          return Some(RootIsNominal);
        }
        if !HasNamedRole(a) {
          return Some(NominalWithoutRole);
        }
      }
      if a.name in classes {
        return Some(DuplicateClass);
      }
      classes := classes + {a.name};
      if spell(a.name) in custody {
        return Some(CustodyCollision);
      }
      custody := custody + {spell(a.name)};
      r := CheckChildren(a);
      if r.Some? {
        return;
      }
      assert actors[..i + 1] == actors[..i] + [a];
    }
    assert actors[..|actors|] == actors;
    return None;
  }

  lemma RefusedIsNotOk(actors: seq<ActorClass>, spell: Name -> Name, why: Refusal)
    requires ClassRefused(actors, spell, why)
    ensures !ClassesOk(actors, spell)
  {
  }

  // ------------------------------------------------------------------ seeds

  ghost predicate Indexes(t: Topology, classes: map<Name, ActorClass>) {
    && (forall x :: x in classes ==> classes[x] in t.actors && classes[x].name == x)
    && (forall a :: a in t.actors ==> a.name in classes && classes[a.name] == a)
  }

  method IndexClasses(t: Topology) returns (classes: map<Name, ActorClass>)
    requires forall i, j :: 0 <= i < j < |t.actors| ==> t.actors[i].name != t.actors[j].name
    ensures Indexes(t, classes) && classes.Keys == Declared(t)
  {
    classes := map[];
    for i := 0 to |t.actors|
      invariant forall x :: x in classes ==> classes[x] in t.actors[..i] && classes[x].name == x
      invariant forall j :: 0 <= j < i ==> t.actors[j].name in classes && classes[t.actors[j].name] == t.actors[j]
    {
      assert t.actors[..i + 1] == t.actors[..i] + [t.actors[i]];
      classes := classes[t.actors[i].name := t.actors[i]];
    }
  }

  function NamesOf(classes: seq<ActorClass>): set<Name> {
    set a | a in classes :: a.name
  }

  method CollectFamilies(t: Topology, classes: map<Name, ActorClass>, root: ActorClass)
    returns (r: Option<Refusal>, pending: seq<ActorClass>)
    requires Indexes(t, classes) && classes.Keys == Declared(t) && root in t.actors && root.name == ROOT
    ensures r.None? ==> FamiliesOk(t) && NamesOf(pending) == {ROOT} + FamilyNames(t) && forall a :: a in pending ==> a in t.actors
    ensures r.Some? ==> !FamiliesOk(t) && (r.value.UndeclaredFamily? || r.value.DuplicateFamily? || r.value.AnchoredFamily?)
  {
    pending := [root];
    var families: set<Name> := {};
    for i := 0 to |t.families|
      invariant families == set j | 0 <= j < i :: t.families[j]
      invariant NamesOf(pending) == {ROOT} + families
      invariant forall a :: a in pending ==> a in t.actors
      invariant DistinctNames(t.families[..i])
      invariant forall j :: 0 <= j < i ==> t.families[j] in classes && t.families[j] != ROOT && classes[t.families[j]].behavior.None?
    {
      var f := t.families[i];
      if f !in classes {
        return Some(UndeclaredFamily), pending;
      }
      if f in families {
        return Some(DuplicateFamily), pending;
      }
      families := families + {f};
      var a := classes[f];
      if a.name == ROOT || a.behavior.Some? {
        return Some(AnchoredFamily), pending;
      }
      NamesAppend(pending, a);
      pending := pending + [a];
    }
    assert t.families[..|t.families|] == t.families;
    assert families == FamilyNames(t);
    r := None;
  }

  lemma NamesAppend(pending: seq<ActorClass>, a: ActorClass)
    ensures NamesOf(pending + [a]) == NamesOf(pending) + {a.name}
  {
    assert forall x :: x in pending + [a] <==> x in pending || x == a;
  }

  /** The first members are lawful: distinct among themselves and from the root's children. */
  ghost predicate LawfulMembers(t: Topology, root: ActorClass, classes: map<Name, ActorClass>, i: nat) {
    && i <= |t.members|
    && DistinctNames(ChildNames(t.members)[..i])
    && (forall j :: 0 <= j < i ==> t.members[j].actor in classes)
    && (forall j, c :: 0 <= j < i && c in root.children ==> t.members[j].name != c.name)
  }

  function RolesBefore(t: Topology, root: ActorClass, i: nat): set<Name>
    requires i <= |t.members|
  {
    (set c | c in root.children :: c.name) + (set j | 0 <= j < i :: t.members[j].name)
  }

  lemma TakenRole(t: Topology, root: ActorClass, i: nat)
    requires i < |t.members| && t.members[i].name in RolesBefore(t, root, i)
    ensures !MembersOk(t, root)
  {
    var names := ChildNames(t.members);
    assert t.members[i] in t.members;
    if j :| 0 <= j < i && t.members[j].name == t.members[i].name {
      assert names[j] == names[i];
    }
  }

  lemma FreeRole(t: Topology, root: ActorClass, classes: map<Name, ActorClass>, i: nat)
    requires i < |t.members| && LawfulMembers(t, root, classes, i)
    requires t.members[i].name !in RolesBefore(t, root, i) && t.members[i].actor in classes
    ensures LawfulMembers(t, root, classes, i + 1)
    ensures RolesBefore(t, root, i + 1) == RolesBefore(t, root, i) + {t.members[i].name}
  {
    var names := ChildNames(t.members);
    assert names[..i + 1] == names[..i] + [t.members[i].name];
    assert forall j :: 0 <= j < i ==> names[..i][j] == t.members[j].name;
  }

  method CollectMembers(t: Topology, classes: map<Name, ActorClass>, root: ActorClass, families: seq<ActorClass>)
    returns (r: Option<Refusal>, pending: seq<ActorClass>)
    requires Indexes(t, classes) && classes.Keys == Declared(t)
    requires NamesOf(families) == {ROOT} + FamilyNames(t) && forall a :: a in families ==> a in t.actors
    ensures r.None? ==> MembersOk(t, root) && NamesOf(pending) == Seeds(t) && forall a :: a in pending ==> a in t.actors
    ensures r.Some? ==> !MembersOk(t, root) && (r.value.DuplicateMember? || r.value.UndeclaredMember?)
  {
    pending := families;
    var roles := set c | c in root.children :: c.name;
    ghost var targets: set<Name> := {};
    for i := 0 to |t.members|
      invariant roles == RolesBefore(t, root, i) && LawfulMembers(t, root, classes, i)
      invariant forall x :: x in targets <==> exists j :: 0 <= j < i && t.members[j].actor == x
      invariant NamesOf(pending) == {ROOT} + FamilyNames(t) + targets
      invariant forall a :: a in pending ==> a in t.actors
    {
      var m := t.members[i];
      if m.name in roles {
        TakenRole(t, root, i);
        return Some(DuplicateMember), pending;
      }
      if m.actor !in classes {
        assert m in t.members;
        return Some(UndeclaredMember), pending;
      }
      FreeRole(t, root, classes, i);
      roles := roles + {m.name};
      NamesAppend(pending, classes[m.actor]);
      pending := pending + [classes[m.actor]];
      targets := targets + {m.actor};
    }
    assert ChildNames(t.members)[..|t.members|] == ChildNames(t.members);
    assert targets == MemberNames(t);
    r := None;
  }

  // --------------------------------------------------------------- worklist

  lemma EdgeOf(t: Topology, a: ActorClass, i: nat)
    requires a in t.actors && i < |a.children|
    ensures (a.name, a.children[i].actor) in EdgesOf(t)
  {
    assert a.children[i] in a.children;
  }

  /** What the worklist keeps: nothing lost, nothing invented. */
  ghost predicate Visiting(edges: Edges, seeds: set<Name>, visited: set<Name>, waiting: set<Name>) {
    && seeds <= visited + waiting
    && (forall a, b :: (a, b) in edges && a in visited ==> b in visited || b in waiting)
    && forall x :: x in visited + waiting ==> ReachedFrom(edges, seeds, x)
  }

  lemma VisitStarts(edges: Edges, seeds: set<Name>)
    ensures Visiting(edges, seeds, {}, seeds)
  {
    forall x | x in seeds ensures ReachedFrom(edges, seeds, x) {
      Stay(edges, x);
    }
  }

  lemma VisitGrows(edges: Edges, seeds: set<Name>, visited: set<Name>, waiting: set<Name>, a: Name, targets: set<Name>)
    requires Visiting(edges, seeds, visited, waiting + {a})
    requires forall b :: b in targets <==> (a, b) in edges
    ensures Visiting(edges, seeds, visited + {a}, waiting + targets)
  {
    assert a in visited + (waiting + {a});
    var s :| s in seeds && Reaches(edges, s, a);
    forall b | b in targets ensures ReachedFrom(edges, seeds, b) {
      Extend(edges, s, a, b);
    }
  }

  lemma TargetsAreEdges(t: Topology, a: ActorClass)
    requires a in t.actors && forall x, y :: x in t.actors && y in t.actors && x.name == y.name ==> x == y
    ensures forall b :: b in Targets(a) <==> (a.name, b) in EdgesOf(t)
  {
    forall b | (a.name, b) in EdgesOf(t) ensures b in Targets(a) {
      var x, c :| x in t.actors && c in x.children && (x.name, c.actor) == (a.name, b);
      assert x == a;
    }
  }

  /** One class off the worklist. */
  method VisitNext(t: Topology, classes: map<Name, ActorClass>, pending: seq<ActorClass>, visited: set<Name>, ghost seeds: set<Name>)
    returns (r: Option<Refusal>, rest: seq<ActorClass>, next: set<Name>)
    requires Indexes(t, classes) && classes.Keys == Declared(t)
    requires pending != [] && (forall a :: a in pending ==> a in t.actors)
    requires Visiting(EdgesOf(t), seeds, visited, NamesOf(pending))
    ensures r.None? ==> (forall a :: a in rest ==> a in t.actors) && Visiting(EdgesOf(t), seeds, next, NamesOf(rest))
    ensures r.None? ==> (next == visited && |rest| < |pending|) || (exists x :: x in classes && x !in visited && next == visited + {x})
    ensures r.Some? ==> r.value.UndeclaredChild? && !ChildrenDeclared(t)
  {
    var a := pending[|pending| - 1];
    rest, next := pending[..|pending| - 1], visited;
    ghost var before := rest;
    assert pending == before + [a] && a in pending;
    NamesAppend(before, a);
    if a.name in visited {
      return None, rest, next;
    }
    r, rest := Expand(t, classes, a, rest);
    if r.None? {
      TargetsAreEdges(t, a);
      VisitGrows(EdgesOf(t), seeds, visited, NamesOf(before), a.name, Targets(a));
      next := visited + {a.name};
    }
  }

  /** The worklist visits exactly what the seeds reach. */
  method Visit(t: Topology, classes: map<Name, ActorClass>, seeds: seq<ActorClass>)
    returns (r: Option<Refusal>, visited: set<Name>)
    requires Indexes(t, classes) && classes.Keys == Declared(t)
    requires forall a :: a in seeds ==> a in t.actors
    ensures r.None? ==> forall x :: x in visited <==> ReachedFrom(EdgesOf(t), NamesOf(seeds), x)
    ensures r.None? ==> Closed(EdgesOf(t), visited) && visited <= classes.Keys
    ensures r.Some? ==> r.value.UndeclaredChild? && !ChildrenDeclared(t)
  {
    var pending := seeds;
    visited := {};
    VisitStarts(EdgesOf(t), NamesOf(seeds));
    while pending != []
      invariant forall a :: a in pending ==> a in t.actors
      invariant Visiting(EdgesOf(t), NamesOf(seeds), visited, NamesOf(pending)) && visited <= classes.Keys
      decreases |classes.Keys - visited|, |pending|
    {
      var next;
      ghost var before := visited;
      r, pending, next := VisitNext(t, classes, pending, visited, NamesOf(seeds));
      if r.Some? {
        return;
      }
      visited := next;
      if visited != before {
        ghost var x :| x in classes && x !in before && visited == before + {x};
        SmallerSubset(classes.Keys - visited, classes.Keys - before, x);
      }
    }
    ClosedIsReachable(EdgesOf(t), NamesOf(seeds), visited);
    r := None;
  }

  /** The children of one class are pushed in order. */
  method Expand(t: Topology, classes: map<Name, ActorClass>, a: ActorClass, rest: seq<ActorClass>)
    returns (r: Option<Refusal>, pending: seq<ActorClass>)
    requires Indexes(t, classes) && classes.Keys == Declared(t) && a in t.actors
    requires forall x :: x in rest ==> x in t.actors
    ensures r.None? ==> (forall x :: x in pending ==> x in t.actors) && NamesOf(pending) == NamesOf(rest) + Targets(a)
    ensures r.Some? ==> r.value.UndeclaredChild? && !ChildrenDeclared(t)
  {
    pending := rest;
    ghost var targets: set<Name> := {};
    for i := 0 to |a.children|
      invariant forall x :: x in pending ==> x in t.actors
      invariant forall x :: x in targets <==> exists j :: 0 <= j < i && a.children[j].actor == x
      invariant NamesOf(pending) == NamesOf(rest) + targets
    {
      var name := a.children[i].actor;
      EdgeOf(t, a, i);
      if name !in classes {
        return Some(UndeclaredChild), pending;
      }
      NamesAppend(pending, classes[name]);
      pending := pending + [classes[name]];
      targets := targets + {name};
    }
    assert targets == Targets(a);
    r := None;
  }

  function Targets(a: ActorClass): set<Name> {
    set c | c in a.children :: c.actor
  }

  // ------------------------------------------------------------------ hosts

  method CheckHosts(t: Topology) returns (r: Option<Refusal>)
    ensures r.None? ==> HostsOk(t)
    ensures r.Some? ==> !HostsOk(t) && (r.value.UndeclaredHost? || r.value.RootHostedElsewhere? || r.value.DuplicateHost?)
  {
    for i := 0 to |t.actors|
      invariant forall j :: 0 <= j < i && t.actors[j].host.Some? ==>
        t.actors[j].host.value in t.hosts && (t.actors[j].name == ROOT ==> t.actors[j].host.value == ROOT)
    {
      var a := t.actors[i];
      if a.host.Some? {
        if a.host.value !in t.hosts {
          assert a in t.actors;
          return Some(UndeclaredHost);
        }
        if a.name == ROOT && a.host.value != ROOT {
          assert a in t.actors;
          return Some(RootHostedElsewhere);
        }
      }
    }
    var fields: set<Name> := {};
    for i := 0 to |t.hosts|
      invariant forall x :: x in fields <==> x in t.hosts[..i]
      invariant DistinctNames(t.hosts[..i])
    {
      assert t.hosts[..i + 1] == t.hosts[..i] + [t.hosts[i]];
      if t.hosts[i] in fields {
        return Some(DuplicateHost);
      }
      fields := fields + {t.hosts[i]};
    }
    assert t.hosts[..|t.hosts|] == t.hosts;
    return None;
  }
}
