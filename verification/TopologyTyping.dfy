/** The derivation of class types as a function: which declaration types which class, pass by
    pass, and that the result is determined by the declaration. */
module TopologyTyping {
  import opened Graphs
  import opened TopologyModel

  function BirthTyped(parent: ActorClass, child: Child, found: Types): Types {
    if child.actor !in found.sources && (Nominal(parent, child) || parent.name in found.sources) then
      Types(found.sources[child.actor := if Nominal(parent, child) then {} else found.sources[parent.name]],
            found.selected[child.actor := (parent.name, child.name)])
    else found
  }

  /** After the first `n` births of one class. */
  function ChildrenTyped(parent: ActorClass, n: nat, found: Types): Types
    requires n <= |parent.children|
  {
    if n == 0 then found else BirthTyped(parent, parent.children[n - 1], ChildrenTyped(parent, n - 1, found))
  }

  /** After the first `n` classes of one pass. */
  function PassTyped(t: Topology, n: nat, found: Types): Types
    requires n <= |t.actors|
  {
    if n == 0 then found
    else ChildrenTyped(t.actors[n - 1], |t.actors[n - 1].children|, PassTyped(t, n - 1, found))
  }

  function MemberTyped(name: Name, found: Types): Types {
    if name in found.sources then found else Types(found.sources[name := {MemberActor(name)}], found.selected)
  }

  function MembersTyped(t: Topology, n: nat, found: Types): Types
    requires n <= |t.members|
  {
    if n == 0 then found else MemberTyped(t.members[n - 1].actor, MembersTyped(t, n - 1, found))
  }

  /** One round: births first, and cold members only if there are none. */
  function RoundTyped(t: Topology, found: Types): Types {
    var born := PassTyped(t, |t.actors|, found);
    if born.sources.Keys == found.sources.Keys then MembersTyped(t, |t.members|, born) else born
  }

  function RoundsTyped(t: Topology, k: nat, found: Types): Types {
    if k == 0 then found else RoundTyped(t, RoundsTyped(t, k - 1, found))
  }

  /** The anchors, and the root as a parameter if it is not one of them. */
  function SeedTyped(t: Topology): Types {
    var anchored := map x | x in Anchors(t) :: {};
    Types(if ROOT in anchored then anchored else anchored[ROOT := {ExecutedRoot}], map[])
  }

  ghost predicate IsDerivationAt(t: Topology, found: Types, k: nat) {
    found == RoundsTyped(t, k, SeedTyped(t)) && RoundTyped(t, found) == found
  }

  /** What the rounds end with. */
  ghost predicate IsDerivation(t: Topology, found: Types) {
    exists k :: IsDerivationAt(t, found, k)
  }

  // ------------------------------------------------------------ it is determined

  /** More classes, or the same types. */
  predicate Grows(a: Types, b: Types) {
    a.sources.Keys <= b.sources.Keys && (a.sources.Keys == b.sources.Keys ==> a == b)
  }

  lemma {:induction false} ChildrenGrow(parent: ActorClass, n: nat, found: Types)
    requires n <= |parent.children|
    ensures Grows(found, ChildrenTyped(parent, n, found))
  {
    if n > 0 {
      ChildrenGrow(parent, n - 1, found);
    }
  }

  lemma {:induction false} PassGrows(t: Topology, n: nat, found: Types)
    requires n <= |t.actors|
    ensures Grows(found, PassTyped(t, n, found))
  {
    if n > 0 {
      PassGrows(t, n - 1, found);
      ChildrenGrow(t.actors[n - 1], |t.actors[n - 1].children|, PassTyped(t, n - 1, found));
    }
  }

  lemma {:induction false} MembersGrow(t: Topology, n: nat, found: Types)
    requires n <= |t.members|
    ensures Grows(found, MembersTyped(t, n, found))
  {
    if n > 0 {
      MembersGrow(t, n - 1, found);
    }
  }

  lemma {:induction false} ChildrenCover(parent: ActorClass, n: nat, found: Types)
    requires n <= |parent.children| && parent.name in found.sources
    ensures forall j :: 0 <= j < n ==> parent.children[j].actor in ChildrenTyped(parent, n, found).sources
  {
    if n > 0 {
      ChildrenCover(parent, n - 1, found);
      ChildrenGrow(parent, n - 1, found);
    }
  }

  lemma {:induction false} MembersCover(t: Topology, n: nat, found: Types)
    requires n <= |t.members|
    ensures forall j :: 0 <= j < n ==> t.members[j].actor in MembersTyped(t, n, found).sources
  {
    if n > 0 {
      MembersCover(t, n - 1, found);
    }
  }

  lemma RoundGrows(t: Topology, found: Types)
    ensures Grows(found, RoundTyped(t, found))
  {
    PassGrows(t, |t.actors|, found);
    MembersGrow(t, |t.members|, PassTyped(t, |t.actors|, found));
  }

  /** A pass that types nothing more has nothing left to type. */
  lemma {:induction false} SilentChildren(a: ActorClass, n: nat, found: Types, j: nat)
    requires j < n <= |a.children| && ChildrenTyped(a, n, found) == found
    ensures Nominal(a, a.children[j]) || a.name in found.sources ==> a.children[j].actor in found.sources
  {
    ChildrenGrow(a, n - 1, found);
    if j < n - 1 {
      SilentChildren(a, n - 1, found, j);
    }
  }

  lemma {:induction false} SilentPass(t: Topology, n: nat, found: Types, i: nat, j: nat)
    requires i < n <= |t.actors| && j < |t.actors[i].children| && PassTyped(t, n, found) == found
    ensures Nominal(t.actors[i], t.actors[i].children[j]) || t.actors[i].name in found.sources ==>
      t.actors[i].children[j].actor in found.sources
  {
    PassGrows(t, n - 1, found);
    var a := t.actors[n - 1];
    ChildrenGrow(a, |a.children|, PassTyped(t, n - 1, found));
    if i < n - 1 {
      SilentPass(t, n - 1, found, i, j);
    } else {
      SilentChildren(a, |a.children|, found, j);
    }
  }

  lemma SilentBirth(t: Topology, found: Types, a: ActorClass, c: Child)
    requires PassTyped(t, |t.actors|, found) == found && a in t.actors && c in a.children
    requires Nominal(a, c) || a.name in found.sources
    ensures c.actor in found.sources
  {
    var i :| 0 <= i < |t.actors| && t.actors[i] == a;
    var j :| 0 <= j < |a.children| && a.children[j] == c;
    SilentPass(t, |t.actors|, found, i, j);
  }

  lemma SilentPassIsClosed(t: Topology, found: Types)
    requires PassTyped(t, |t.actors|, found) == found
    ensures Closed(EdgesOf(t), found.sources.Keys)
  {
    forall x, y | (x, y) in EdgesOf(t) && x in found.sources.Keys ensures y in found.sources.Keys {
      var a, c :| a in t.actors && c in a.children && (a.name, c.actor) == (x, y);
      SilentBirth(t, found, a, c);
    }
  }

  lemma {:induction false} RoundsStay(t: Topology, k: nat, more: nat, found: Types)
    requires IsDerivationAt(t, found, k)
    ensures RoundsTyped(t, k + more, SeedTyped(t)) == found
    decreases more
  {
    if more > 0 {
      RoundsStay(t, k, more - 1, found);
    }
  }

  /** A declaration has one derivation. */
  lemma OneDerivation(t: Topology, a: Types, b: Types)
    requires IsDerivation(t, a) && IsDerivation(t, b)
    ensures a == b
  {
    var i: nat :| IsDerivationAt(t, a, i);
    var j: nat :| IsDerivationAt(t, b, j);
    RoundsStay(t, i, if i < j then j - i else 0, a);
    RoundsStay(t, j, if i < j then 0 else i - j, b);
  }

  // ------------------------------------------------------------ induction over the rounds

  ghost predicate BirthsKeep(t: Topology, inv: Types -> bool) {
    forall a, c, found :: a in t.actors && c in a.children && inv(found) ==> inv(BirthTyped(a, c, found))
  }

  ghost predicate MembersKeep(t: Topology, inv: Types -> bool) {
    forall found :: inv(found) && PassTyped(t, |t.actors|, found) == found ==> inv(MembersTyped(t, |t.members|, found))
  }

  lemma {:induction false} ChildrenKeepAll(t: Topology, inv: Types -> bool, a: ActorClass, n: nat, found: Types)
    requires BirthsKeep(t, inv) && a in t.actors && n <= |a.children| && inv(found)
    ensures inv(ChildrenTyped(a, n, found))
  {
    if n > 0 {
      ChildrenKeepAll(t, inv, a, n - 1, found);
      assert a.children[n - 1] in a.children;
    }
  }

  lemma {:induction false} PassKeepsAll(t: Topology, inv: Types -> bool, n: nat, found: Types)
    requires BirthsKeep(t, inv) && n <= |t.actors| && inv(found)
    ensures inv(PassTyped(t, n, found))
  {
    if n > 0 {
      PassKeepsAll(t, inv, n - 1, found);
      ChildrenKeepAll(t, inv, t.actors[n - 1], |t.actors[n - 1].children|, PassTyped(t, n - 1, found));
    }
  }

  lemma {:induction false} RoundsKeepAll(t: Topology, inv: Types -> bool, k: nat)
    requires BirthsKeep(t, inv) && MembersKeep(t, inv) && inv(SeedTyped(t))
    ensures inv(RoundsTyped(t, k, SeedTyped(t)))
  {
    if k > 0 {
      RoundsKeepAll(t, inv, k - 1);
      var before := RoundsTyped(t, k - 1, SeedTyped(t));
      PassKeepsAll(t, inv, |t.actors|, before);
      PassGrows(t, |t.actors|, before);
    }
  }

  lemma DerivationKeeps(t: Topology, inv: Types -> bool, found: Types)
    requires BirthsKeep(t, inv) && MembersKeep(t, inv) && inv(SeedTyped(t)) && IsDerivation(t, found)
    ensures inv(found)
  {
    var k: nat :| IsDerivationAt(t, found, k);
    RoundsKeepAll(t, inv, k);
  }
}
