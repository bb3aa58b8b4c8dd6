/** Where the type of each actor class comes from: staged saturation of birth occurrences,
    and the derivation of class types with the parameters they depend on. */
module TopologyInference {
  import opened Basics
  import opened Graphs
  import opened TopologyModel
  import opened TopologyChecks
  import opened TopologyTyping

  // ------------------------------------------------------- birth occurrences

  datatype Occurrence = Occurrence(parent: ActorClass, child: Child)

  /** Births of the root are never selected. */
  function BirthEdges(t: Topology): Edges {
    set a, c | a in t.actors && c in a.children && c.actor != ROOT :: (a.name, c.actor)
  }

  function Born(selected: seq<Occurrence>): set<Name> {
    set o | o in selected :: o.child.actor
  }

  /** One occurrence per class outside the anchors, each below an anchor or an earlier birth. */
  ghost predicate Births(t: Topology, anchors: set<Name>, selected: seq<Occurrence>) {
    selected == [] ||
      var earlier := selected[..|selected| - 1];
      Births(t, anchors, earlier) && BornAfter(t, anchors + Born(earlier), selected[|selected| - 1])
  }

  predicate BornAfter(t: Topology, known: set<Name>, o: Occurrence) {
    && o.parent in t.actors && o.child in o.parent.children && o.parent.name in known
    && o.child.actor != ROOT && o.child.actor !in known
  }

  lemma BornAppend(selected: seq<Occurrence>, o: Occurrence)
    ensures Born(selected + [o]) == Born(selected) + {o.child.actor}
  {
    assert forall x :: x in selected + [o] <==> x in selected || x == o;
  }

  lemma BirthsAppend(t: Topology, anchors: set<Name>, selected: seq<Occurrence>, o: Occurrence)
    requires Births(t, anchors, selected) && BornAfter(t, anchors + Born(selected), o)
    ensures Births(t, anchors, selected + [o])
  {
    assert (selected + [o])[..|selected|] == selected;
  }

  /** More anchors, none of them born already. */
  lemma {:induction false} BirthsWiden(t: Topology, anchors: set<Name>, more: set<Name>, selected: seq<Occurrence>)
    requires Births(t, anchors, selected) && more !! Born(selected)
    ensures Births(t, anchors + more, selected)
    decreases |selected|
  {
    if selected != [] {
      var earlier, o := selected[..|selected| - 1], selected[|selected| - 1];
      assert selected == earlier + [o];
      BornAppend(earlier, o);
      BirthsWiden(t, anchors, more, earlier);
    }
  }

  lemma {:induction false} RootIsNotBorn(t: Topology, anchors: set<Name>, selected: seq<Occurrence>)
    requires Births(t, anchors, selected)
    ensures ROOT !in Born(selected)
    decreases |selected|
  {
    if selected != [] {
      var earlier, o := selected[..|selected| - 1], selected[|selected| - 1];
      assert selected == earlier + [o];
      BornAppend(earlier, o);
      RootIsNotBorn(t, anchors, earlier);
    }
  }

  /** One birth, selected if its class is still unknown. */
  method SelectChild(t: Topology, parent: ActorClass, child: Child, known: set<Name>, selected: seq<Occurrence>, ghost anchors: set<Name>)
    returns (grown: set<Name>, chosen: seq<Occurrence>)
    requires parent in t.actors && parent.name in known && child in parent.children
    requires Births(t, anchors, selected) && known == anchors + Born(selected)
    ensures Births(t, anchors, chosen) && grown == anchors + Born(chosen)
    ensures grown == if child.actor == ROOT then known else known + {child.actor}
  {
    grown, chosen := known, selected;
    if child.actor != ROOT && child.actor !in known {
      BirthsAppend(t, anchors, selected, Occurrence(parent, child));
      BornAppend(selected, Occurrence(parent, child));
      grown := known + {child.actor};
      chosen := selected + [Occurrence(parent, child)];
    }
  }

  /** The births of one class. */
  method SelectChildren(t: Topology, parent: ActorClass, known: set<Name>, selected: seq<Occurrence>, ghost anchors: set<Name>)
    returns (grown: set<Name>, chosen: seq<Occurrence>)
    requires parent in t.actors && parent.name in known
    requires Births(t, anchors, selected) && known == anchors + Born(selected)
    ensures Births(t, anchors, chosen) && grown == anchors + Born(chosen)
    ensures known <= grown && forall c :: c in parent.children && c.actor != ROOT ==> c.actor in grown
    ensures forall x :: x in grown - known ==> x in Targets(parent) && (parent.name, x) in BirthEdges(t)
  {
    grown, chosen := known, selected;
    for i := 0 to |parent.children|
      invariant Births(t, anchors, chosen) && grown == anchors + Born(chosen)
      invariant known <= grown && forall j :: 0 <= j < i && parent.children[j].actor != ROOT ==> parent.children[j].actor in grown
      invariant forall x :: x in grown - known ==> x in Targets(parent) && (parent.name, x) in BirthEdges(t)
    {
      assert parent.children[i] in parent.children;
      grown, chosen := SelectChild(t, parent, parent.children[i], grown, chosen, anchors);
    }
  }

  lemma StillReached(edges: Edges, start: set<Name>, parent: Name, known: set<Name>, grown: set<Name>)
    requires parent in known && forall x :: x in known ==> ReachedFrom(edges, start, x)
    requires forall x :: x in grown - known ==> (parent, x) in edges
    ensures forall x :: x in grown ==> ReachedFrom(edges, start, x)
  {
    var s :| s in start && Reaches(edges, s, parent);
    forall x | x in grown && x !in known ensures ReachedFrom(edges, start, x) {
      Extend(edges, s, parent, x);
    }
  }

  method SelectPass(t: Topology, known: set<Name>, selected: seq<Occurrence>, ghost anchors: set<Name>, ghost start: set<Name>)
    returns (grown: set<Name>, chosen: seq<Occurrence>)
    requires Births(t, anchors, selected) && known == anchors + Born(selected) && known <= Declared(t) && ChildrenDeclared(t)
    requires forall x :: x in known ==> ReachedFrom(BirthEdges(t), start, x)
    ensures Births(t, anchors, chosen) && grown == anchors + Born(chosen) && known <= grown <= Declared(t)
    ensures forall x :: x in grown ==> ReachedFrom(BirthEdges(t), start, x)
    ensures grown == known ==> Closed(BirthEdges(t), known)
  {
    grown, chosen := known, selected;
    for i := 0 to |t.actors|
      invariant Births(t, anchors, chosen) && grown == anchors + Born(chosen) && known <= grown <= Declared(t)
      invariant forall x :: x in grown ==> ReachedFrom(BirthEdges(t), start, x)
      invariant forall j, c :: 0 <= j < i && t.actors[j].name in known && c in t.actors[j].children && c.actor != ROOT ==> c.actor in grown
    {
      var parent := t.actors[i];
      if parent.name in grown {
        ghost var before := grown;
        grown, chosen := SelectChildren(t, parent, grown, chosen, anchors);
        StillReached(BirthEdges(t), start, parent.name, before, grown);
        forall c | c in parent.children ensures c.actor in Declared(t) {
          assert (parent.name, c.actor) in EdgesOf(t);
        }
        assert grown <= before + Targets(parent);
      }
    }
  }

  /** Saturation: known grows to exactly what it reaches by births other than the root's. */
  method SelectBirthTypes(t: Topology, known: set<Name>, selected: seq<Occurrence>, ghost anchors: set<Name>)
    returns (grown: set<Name>, chosen: seq<Occurrence>)
    requires Births(t, anchors, selected) && known == anchors + Born(selected) && known <= Declared(t) && ChildrenDeclared(t)
    ensures Births(t, anchors, chosen) && grown == anchors + Born(chosen) && known <= grown <= Declared(t)
    ensures forall x :: x in grown <==> ReachedFrom(BirthEdges(t), known, x)
    ensures Closed(BirthEdges(t), grown)
  {
    grown, chosen := known, selected;
    forall x | x in known ensures ReachedFrom(BirthEdges(t), known, x) {
      Stay(BirthEdges(t), x);
    }
    while true
      invariant Births(t, anchors, chosen) && grown == anchors + Born(chosen) && known <= grown <= Declared(t)
      invariant forall x :: x in grown ==> ReachedFrom(BirthEdges(t), known, x)
      decreases |Declared(t) - grown|
    {
      var before := grown;
      grown, chosen := SelectPass(t, grown, chosen, anchors, known);
      if grown == before {
        ClosedIsReachable(BirthEdges(t), known, grown);
        return;
      }
      LessRemains(Declared(t), before, grown);
    }
  }

  lemma RootCloses(t: Topology, known: set<Name>)
    requires Closed(BirthEdges(t), known) && ROOT in known
    ensures Closed(EdgesOf(t), known)
  {
    forall a, b | (a, b) in EdgesOf(t) && a in known ensures b in known {
      if b != ROOT {
        assert (a, b) in BirthEdges(t);
      }
    }
  }

  lemma ConnectedCovers(t: Topology, known: set<Name>)
    requires Connected(t) && Seeds(t) <= known && Closed(EdgesOf(t), known)
    ensures Declared(t) <= known
  {
    forall x | x in Declared(t) ensures x in known {
      var s :| s in Seeds(t) && Reaches(EdgesOf(t), s, x);
      var p :| PathBetween(EdgesOf(t), p, s, x);
      ClosedCovers(EdgesOf(t), known, p);
    }
  }

  method FindUnknown(t: Topology, known: set<Name>) returns (r: Option<Refusal>)
    ensures r == if Declared(t) <= known then None else Some(NoBirthOccurrence)
  {
    for i := 0 to |t.actors|
      invariant forall j :: 0 <= j < i ==> t.actors[j].name in known
    {
      if t.actors[i].name !in known {
        assert t.actors[i] in t.actors;
        return Some(NoBirthOccurrence);
      }
    }
    return None;
  }

  /** More anchors, and then everything that they reach; those already born stay births. */
  method Widen(t: Topology, known: set<Name>, selected: seq<Occurrence>, ghost anchors: set<Name>, more: set<Name>)
    returns (grown: set<Name>, chosen: seq<Occurrence>, ghost wider: set<Name>)
    requires Births(t, anchors, selected) && known == anchors + Born(selected)
    requires ChildrenDeclared(t) && known + more <= Declared(t)
    ensures Births(t, wider, chosen) && grown == wider + Born(chosen)
    ensures known + more <= grown <= Declared(t) && wider == anchors + (more - known)
    ensures Closed(BirthEdges(t), grown)
    ensures ROOT in more ==> ROOT in wider
  {
    RootIsNotBorn(t, anchors, selected);
    BirthsWiden(t, anchors, more - known, selected);
    wider := anchors + (more - known);
    grown, chosen := SelectBirthTypes(t, known + more, selected, wider);
  }

  /** Three stages: concrete anchors, then the root, then the cold members. */
  method Saturate(t: Topology) returns (known: set<Name>, selected: seq<Occurrence>, ghost anchors: set<Name>)
    requires ChildrenDeclared(t) && Anchors(t) + {ROOT} + MemberNames(t) <= Declared(t)
    ensures Anchors(t) + {ROOT} <= anchors <= Anchors(t) + {ROOT} + MemberNames(t) <= known <= Declared(t)
    ensures Births(t, anchors, selected) && known == anchors + Born(selected)
    ensures Closed(BirthEdges(t), known)
  {
    known, anchors, selected := {}, {}, [];
    assert known == anchors + Born(selected);
    known, selected, anchors := Widen(t, known, selected, anchors, Anchors(t));
    known, selected, anchors := Widen(t, known, selected, anchors, {ROOT});
    known, selected, anchors := Widen(t, known, selected, anchors, MemberNames(t));
  }

  lemma SaturatedIsDeclared(t: Topology, known: set<Name>)
    requires Connected(t) && Anchors(t) + {ROOT} + MemberNames(t) <= known && Closed(BirthEdges(t), known)
    ensures Declared(t) <= known
  {
    RootCloses(t, known);
    ConnectedCovers(t, known);
  }

  /** In a connected topology the saturation knows every class, so no class lacks a birth
      occurrence, and each one outside the anchors has exactly one. */
  method IncomingOccurrences(t: Topology) returns (r: Option<Refusal>, selected: seq<Occurrence>, ghost anchors: set<Name>)
    requires Connected(t)
    ensures r.None?
    ensures Anchors(t) + {ROOT} <= anchors <= Anchors(t) + {ROOT} + MemberNames(t)
    ensures Births(t, anchors, selected) && Declared(t) == anchors + Born(selected)
  {
    AnchorsAreDeclared(t);
    var known;
    known, selected, anchors := Saturate(t);
    SaturatedIsDeclared(t, known);
    r := FindUnknown(t, known);
  }

  lemma AnchorsAreDeclared(t: Topology)
    requires FamilyNames(t) <= Declared(t)
    ensures Anchors(t) <= Declared(t)
  {
  }

  // --------------------------------------------------------------- class types

  ghost predicate Typing(t: Topology, sources: map<Name, set<Parameter>>, selected: map<Name, (Name, Name)>,
                         stamp: map<Name, nat>, clock: nat)
  {
    && sources.Keys == stamp.Keys && sources.Keys <= Declared(t) && selected.Keys <= sources.Keys
    && (forall x :: x in stamp ==> stamp[x] < clock)
    && forall x :: x in sources ==> Derived(t, x, sources, selected, stamp)
  }

  /** A new class, typed at a birth. */
  lemma TypeChild(t: Topology, parent: ActorClass, child: Child, sources: map<Name, set<Parameter>>,
                  selected: map<Name, (Name, Name)>, stamp: map<Name, nat>, clock: nat)
    requires Typing(t, sources, selected, stamp, clock)
    requires parent in t.actors && child in parent.children && child.actor in Declared(t) && child.actor !in sources
    requires Nominal(parent, child) || parent.name in sources
    ensures var inherited := if Nominal(parent, child) then {} else sources[parent.name];
      Typing(t, sources[child.actor := inherited], selected[child.actor := (parent.name, child.name)],
             stamp[child.actor := clock], clock + 1)
  {
    var inherited := if Nominal(parent, child) then {} else sources[parent.name];
    var s1, l1, m1 := sources[child.actor := inherited], selected[child.actor := (parent.name, child.name)], stamp[child.actor := clock];
    forall x | x in s1 ensures Derived(t, x, s1, l1, m1) {
      if x != child.actor {
        assert Derived(t, x, sources, selected, stamp);
      }
    }
  }

  /** A new class, typed by a parameter or an anchor. */
  lemma TypeSeed(t: Topology, x: Name, parameters: set<Parameter>, sources: map<Name, set<Parameter>>,
                 selected: map<Name, (Name, Name)>, stamp: map<Name, nat>, clock: nat)
    requires Typing(t, sources, selected, stamp, clock) && x in Declared(t) && x !in sources
    requires if x in Anchors(t) then parameters == {}
             else if x == ROOT then parameters == {ExecutedRoot}
             else x in MemberNames(t) && parameters == {MemberActor(x)}
    ensures Typing(t, sources[x := parameters], selected, stamp[x := clock], clock + 1)
  {
    forall y | y in sources ensures Derived(t, y, sources[x := parameters], selected, stamp[x := clock]) {
      assert Derived(t, y, sources, selected, stamp);
    }
  }

  /** One birth, typed now if its parent allows. */
  method TypeBirth(t: Topology, parent: ActorClass, child: Child, found: Types, ghost stamp: map<Name, nat>, ghost clock: nat)
    returns (more: Types, ghost stamps: map<Name, nat>, ghost now: nat)
    requires Typing(t, found.sources, found.selected, stamp, clock)
    requires parent in t.actors && child in parent.children && child.actor in Declared(t)
    ensures Typing(t, more.sources, more.selected, stamps, now) && found.sources.Keys <= more.sources.Keys
    ensures parent.name in found.sources ==> child.actor in more.sources
    ensures more == BirthTyped(parent, child, found)
  {
    more, stamps, now := found, stamp, clock;
    if child.actor !in found.sources && (Nominal(parent, child) || parent.name in found.sources) {
      TypeChild(t, parent, child, found.sources, found.selected, stamp, clock);
      var inherited := if Nominal(parent, child) then {} else found.sources[parent.name];
      more := Types(found.sources[child.actor := inherited], found.selected[child.actor := (parent.name, child.name)]);
      stamps, now := stamp[child.actor := clock], clock + 1;
    }
  }

  /** The births of one class that can be typed now. */
  method TypeChildren(t: Topology, parent: ActorClass, found: Types, ghost stamp: map<Name, nat>, ghost clock: nat)
    returns (more: Types, ghost stamps: map<Name, nat>, ghost now: nat)
    requires Typing(t, found.sources, found.selected, stamp, clock) && parent in t.actors && ChildrenDeclared(t)
    ensures Typing(t, more.sources, more.selected, stamps, now) && found.sources.Keys <= more.sources.Keys
    ensures parent.name in found.sources ==> forall c :: c in parent.children ==> c.actor in more.sources
    ensures more == ChildrenTyped(parent, |parent.children|, found)
  {
    more, stamps, now := found, stamp, clock;
    for i := 0 to |parent.children|
      invariant Typing(t, more.sources, more.selected, stamps, now) && more == ChildrenTyped(parent, i, found)
    {
      EdgeOf(t, parent, i);
      more, stamps, now := TypeBirth(t, parent, parent.children[i], more, stamps, now);
    }
    ChildrenGrow(parent, |parent.children|, found);
    if parent.name in found.sources {
      ChildrenCover(parent, |parent.children|, found);
    }
  }

  method TypePass(t: Topology, found: Types, ghost stamp: map<Name, nat>, ghost clock: nat)
    returns (more: Types, ghost stamps: map<Name, nat>, ghost now: nat)
    requires Typing(t, found.sources, found.selected, stamp, clock) && ChildrenDeclared(t)
    ensures Typing(t, more.sources, more.selected, stamps, now) && found.sources.Keys <= more.sources.Keys
    ensures more.sources.Keys == found.sources.Keys ==> Closed(EdgesOf(t), found.sources.Keys)
    ensures more == PassTyped(t, |t.actors|, found)
  {
    more, stamps, now := found, stamp, clock;
    for i := 0 to |t.actors|
      invariant Typing(t, more.sources, more.selected, stamps, now) && more == PassTyped(t, i, found)
    {
      more, stamps, now := TypeChildren(t, t.actors[i], more, stamps, now);
    }
    PassGrows(t, |t.actors|, found);
    if more.sources.Keys == found.sources.Keys {
      SilentPassIsClosed(t, found);
    }
  }

  method SeedMember(t: Topology, name: Name, found: Types, ghost stamp: map<Name, nat>, ghost clock: nat)
    returns (more: Types, ghost stamps: map<Name, nat>, ghost now: nat)
    requires Typing(t, found.sources, found.selected, stamp, clock) && name in MemberNames(t) && name in Declared(t)
    requires ROOT in found.sources && Anchors(t) <= found.sources.Keys
    ensures Typing(t, more.sources, more.selected, stamps, now)
    ensures more.sources.Keys == found.sources.Keys + {name} && more == MemberTyped(name, found)
  {
    more, stamps, now := found, stamp, clock;
    if name !in more.sources {
      TypeSeed(t, name, {MemberActor(name)}, more.sources, more.selected, stamps, now);
      more := Types(more.sources[name := {MemberActor(name)}], more.selected);
      stamps, now := stamps[name := now], now + 1;
    }
  }

  /** Only when births yield nothing more does a cold member become a parameter. */
  method SeedMembers(t: Topology, found: Types, ghost stamp: map<Name, nat>, ghost clock: nat)
    returns (more: Types, ghost stamps: map<Name, nat>, ghost now: nat)
    requires Typing(t, found.sources, found.selected, stamp, clock) && MemberNames(t) <= Declared(t)
    requires ROOT in found.sources && Anchors(t) <= found.sources.Keys
    ensures Typing(t, more.sources, more.selected, stamps, now)
    ensures found.sources.Keys + MemberNames(t) <= more.sources.Keys
    ensures more == MembersTyped(t, |t.members|, found)
  {
    more, stamps, now := found, stamp, clock;
    for i := 0 to |t.members|
      invariant Typing(t, more.sources, more.selected, stamps, now) && more == MembersTyped(t, i, found)
      invariant found.sources.Keys <= more.sources.Keys
    {
      assert t.members[i] in t.members;
      more, stamps, now := SeedMember(t, t.members[i].actor, more, stamps, now);
    }
    MembersCover(t, |t.members|, found);
  }

  method SeedAnchors(t: Topology, root: ActorClass)
    returns (found: Types, ghost stamps: map<Name, nat>, ghost now: nat)
    requires Anchors(t) + {ROOT} <= Declared(t) && root in t.actors && root.name == ROOT
    ensures Typing(t, found.sources, found.selected, stamps, now)
    ensures found.sources.Keys == Anchors(t) + {ROOT} && found == SeedTyped(t)
  {
    found, now := Types(map x | x in Anchors(t) :: {}, map[]), 1;
    stamps := map x | x in Anchors(t) :: 0;
    if root.behavior.None? && ROOT !in found.sources {
      TypeSeed(t, ROOT, {ExecutedRoot}, found.sources, found.selected, stamps, now);
      found := Types(found.sources[ROOT := {ExecutedRoot}], found.selected);
      stamps, now := stamps[ROOT := now], now + 1;
    }
  }

  /** One round: births first, and cold members only if there are none. */
  method TypeRound(t: Topology, found: Types, ghost stamp: map<Name, nat>, ghost clock: nat)
    returns (more: Types, ghost stamps: map<Name, nat>, ghost now: nat)
    requires Typing(t, found.sources, found.selected, stamp, clock) && ChildrenDeclared(t) && MemberNames(t) <= Declared(t)
    requires ROOT in found.sources && Anchors(t) <= found.sources.Keys
    ensures Typing(t, more.sources, more.selected, stamps, now) && found.sources.Keys <= more.sources.Keys
    ensures more.sources.Keys == found.sources.Keys ==>
      Closed(EdgesOf(t), found.sources.Keys) && MemberNames(t) <= found.sources.Keys
    ensures more == RoundTyped(t, found)
  {
    more, stamps, now := TypePass(t, found, stamp, clock);
    if more.sources.Keys == found.sources.Keys {
      more, stamps, now := SeedMembers(t, more, stamps, now);
    }
  }

  method TypeAll(t: Topology, root: ActorClass) returns (found: Types, ghost stamps: map<Name, nat>, ghost now: nat)
    requires ChildrenDeclared(t) && Anchors(t) + {ROOT} + MemberNames(t) <= Declared(t) && root in t.actors && root.name == ROOT
    ensures Typing(t, found.sources, found.selected, stamps, now)
    ensures Anchors(t) + {ROOT} + MemberNames(t) <= found.sources.Keys && Closed(EdgesOf(t), found.sources.Keys)
    ensures IsDerivation(t, found)
  {
    found, stamps, now := SeedAnchors(t, root);
    ghost var last, k := found, 0;
    var before := found.sources.Keys;
    found, stamps, now := TypeRound(t, found, stamps, now);
    while found.sources.Keys != before
      invariant Typing(t, found.sources, found.selected, stamps, now)
      invariant Anchors(t) + {ROOT} <= before <= found.sources.Keys && before == last.sources.Keys
      invariant found.sources.Keys == before ==> Closed(EdgesOf(t), before) && MemberNames(t) <= before
      invariant last == RoundsTyped(t, k, SeedTyped(t)) && found == RoundTyped(t, last)
      decreases |Declared(t) - before|
    {
      LessRemains(Declared(t), before, found.sources.Keys);
      before := found.sources.Keys;
      last, k := found, k + 1;
      found, stamps, now := TypeRound(t, found, stamps, now);
    }
    RoundGrows(t, last);
    assert IsDerivationAt(t, found, k);
  }

  lemma TypedIsDeclared(t: Topology, typed: set<Name>)
    requires Connected(t) && Anchors(t) + {ROOT} + MemberNames(t) <= typed && Closed(EdgesOf(t), typed)
    ensures Declared(t) <= typed
  {
    ConnectedCovers(t, typed);
  }

  /** In a connected topology every class gets a type, so nothing is left pending. */
  method ActorTypes(t: Topology, root: ActorClass) returns (found: Types, ghost stamps: map<Name, nat>, ghost now: nat)
    requires Connected(t) && root in t.actors && root.name == ROOT
    ensures Typing(t, found.sources, found.selected, stamps, now)
    ensures found.sources.Keys == Declared(t) && IsDerivation(t, found)
  {
    AnchorsAreDeclared(t);
    found, stamps, now := TypeAll(t, root);
    TypedIsDeclared(t, found.sources.Keys);
    var pending := Declared(t) - found.sources.Keys;
    assert pending == {};
  }

  /** Whatever the order of declarations, a class depends on one parameter at most. */
  lemma {:induction false} OneParameter(t: Topology, sources: map<Name, set<Parameter>>, selected: map<Name, (Name, Name)>,
                                        stamp: map<Name, nat>, clock: nat, x: Name)
    requires Typing(t, sources, selected, stamp, clock) && x in sources
    ensures sources[x] == {} || sources[x] == {ExecutedRoot} || exists m :: m in MemberNames(t) && sources[x] == {MemberActor(m)}
    decreases stamp[x]
  {
    assert Derived(t, x, sources, selected, stamp);
    if x in selected {
      var p, c :| p in t.actors && c in p.children && c.actor == x && selected[x] == (p.name, c.name)
        && (if Nominal(p, c) then sources[x] == {}
            else p.name in sources && sources[x] == sources[p.name] && p.name in stamp && stamp[p.name] < stamp[x]);
      if !Nominal(p, c) {
        OneParameter(t, sources, selected, stamp, clock, p.name);
      }
    }
  }
}
