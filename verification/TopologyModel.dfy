/** A topology declaration as names, edges and sets, and what a well-formed one is.
    Types and roles are spelled by uninterpreted strings. */
module TopologyModel {
  import opened Basics
  import opened Graphs

  const ROOT: Name := "root"

  datatype Child = Child(name: Name, role: Option<string>, actor: Name)

  datatype ActorClass = ActorClass(
    name: Name, behavior: Option<string>, roleParent: Option<string>, host: Option<Name>, children: seq<Child>)

  datatype Topology = Topology(
    actors: seq<ActorClass>, hosts: seq<Name>, members: seq<Child>, families: seq<Name>)

  datatype Refusal =
    | RootIsNominal
    | NominalWithoutRole
    | DuplicateClass
    | CustodyCollision
    | DuplicateChildRole
    | UnnamedAmongMany
    | MissingRoot
    | UndeclaredFamily
    | DuplicateFamily
    | AnchoredFamily
    | DuplicateMember
    | UndeclaredMember
    | UndeclaredChild
    | Unreachable
    | UndeclaredHost
    | RootHostedElsewhere
    | DuplicateHost
    | OpaqueRootWithBirths
    | NoBirthOccurrence
    | RecursiveClasses

  function Declared(t: Topology): set<Name> {
    set a | a in t.actors :: a.name
  }

  function EdgesOf(t: Topology): Edges {
    set a, c | a in t.actors && c in a.children :: (a.name, c.actor)
  }

  function FamilyNames(t: Topology): set<Name> {
    set f | f in t.families
  }

  function MemberNames(t: Topology): set<Name> {
    set m | m in t.members :: m.actor
  }

  function Seeds(t: Topology): set<Name> {
    {ROOT} + FamilyNames(t) + MemberNames(t)
  }

  // ---------------------------------------------------------- well-formedness

  predicate DistinctNames(s: seq<Name>) {
    forall i, j :: 0 <= i < j < |s| ==> s[i] != s[j]
  }

  function ChildNames(children: seq<Child>): seq<Name> {
    seq(|children|, i requires 0 <= i < |children| => children[i].name)
  }

  predicate HasNamedRole(a: ActorClass) {
    exists c :: c in a.children && c.role.Some?
  }

  /** One class on its own. */
  predicate ClassOk(a: ActorClass) {
    && (a.roleParent.Some? ==> a.name != ROOT && HasNamedRole(a))
    && DistinctNames(ChildNames(a.children))
    && (forall c :: c in a.children && c.role.None? ==> |a.children| == 1)
  }

  ghost predicate ClassesOk(actors: seq<ActorClass>, spell: Name -> Name) {
    && (forall i :: 0 <= i < |actors| ==> ClassOk(actors[i]))
    && (forall i, j :: 0 <= i < j < |actors| ==>
          actors[i].name != actors[j].name && spell(actors[i].name) != spell(actors[j].name))
  }

  /** Families are declared once, away from the root, and take their type from elsewhere. */
  ghost predicate FamiliesOk(t: Topology) {
    && DistinctNames(t.families)
    && (forall f :: f in t.families ==> f in Declared(t) && f != ROOT)
    && (forall a :: a in t.actors && a.name in t.families ==> a.behavior.None?)
  }

  ghost predicate MembersOk(t: Topology, root: ActorClass) {
    && DistinctNames(ChildNames(t.members))
    && (forall m :: m in t.members ==> m.actor in Declared(t))
    && (forall m, c :: m in t.members && c in root.children ==> m.name != c.name)
  }

  ghost predicate ChildrenDeclared(t: Topology) {
    forall a, b :: (a, b) in EdgesOf(t) ==> b in Declared(t)
  }

  ghost predicate AllReachable(t: Topology) {
    forall x :: x in Declared(t) ==> ReachedFrom(EdgesOf(t), Seeds(t), x)
  }

  predicate HostsOk(t: Topology) {
    && (forall a :: a in t.actors && a.host.Some? ==> a.host.value in t.hosts && (a.name == ROOT ==> a.host.value == ROOT))
    && DistinctNames(t.hosts)
  }

  /** A root whose type is inferred has one birth at most and no cold members. */
  predicate RootOk(t: Topology, root: ActorClass) {
    root.behavior.None? ==> t.members == [] && |root.children| <= 1
  }

  /** Everything but the recursion check. */
  ghost predicate WellFormed(t: Topology, spell: Name -> Name) {
    && ClassesOk(t.actors, spell)
    && (exists root :: root in t.actors && root.name == ROOT && MembersOk(t, root) && RootOk(t, root))
    && FamiliesOk(t) && ChildrenDeclared(t) && AllReachable(t) && HostsOk(t)
  }

  /** What the later passes may rely on. */
  ghost predicate Connected(t: Topology) {
    && (forall i, j :: 0 <= i < j < |t.actors| ==> t.actors[i].name != t.actors[j].name)
    && ROOT in Declared(t) && FamilyNames(t) <= Declared(t) && MemberNames(t) <= Declared(t)
    && ChildrenDeclared(t) && AllReachable(t)
  }

  lemma WellFormedIsConnected(t: Topology, spell: Name -> Name)
    requires WellFormed(t, spell)
    ensures Connected(t)
  {
  }

  // ----------------------------------------------------- inference by parameters

  datatype Parameter = ExecutedRoot | OriginalRoot | MemberActor(member: Name)

  /** The parameters each typed class depends on, and the birth each was typed at. */
  datatype Types = Types(sources: map<Name, set<Parameter>>, selected: map<Name, (Name, Name)>)

  /** The child type is read off a named role of a nominal parent. */
  predicate Nominal(parent: ActorClass, child: Child) {
    parent.roleParent.Some? && child.role.Some?
  }

  function Anchors(t: Topology): set<Name> {
    (set a | a in t.actors && a.behavior.Some? :: a.name) + FamilyNames(t)
  }

  /** Classes whose own creation depends on a parameter. */
  function DependentBase(t: Topology, dependent: set<Name>): set<Name> {
    set a | a in t.actors && a.children != [] &&
      (a.name in dependent || exists c :: c in a.children && c.actor in dependent) :: a.name
  }

  /** Classes that reach one of those: the ones whose schema is parameterized. */
  ghost predicate DependsOn(t: Topology, dependent: set<Name>, x: Name) {
    ReachesSome(EdgesOf(t), x, DependentBase(t, dependent))
  }

  function Dependents(sources: map<Name, set<Parameter>>): set<Name> {
    set x | x in sources && sources[x] != {}
  }

  /** How the type of `x` was found: as an anchor, as a parameter, or at a birth whose
      parent was typed earlier (or is nominal, and then nothing is inherited). */
  ghost predicate Derived(t: Topology, x: Name, sources: map<Name, set<Parameter>>, selected: map<Name, (Name, Name)>,
                          stamp: map<Name, nat>)
  {
    x in sources && x in stamp &&
    if x in selected then
      exists p, c :: p in t.actors && c in p.children && c.actor == x && selected[x] == (p.name, c.name)
        && (if Nominal(p, c) then sources[x] == {}
            else p.name in sources && sources[x] == sources[p.name] && p.name in stamp && stamp[p.name] < stamp[x])
    else if x in Anchors(t) then sources[x] == {}
    else if x == ROOT then sources[x] == {ExecutedRoot}
    else x in MemberNames(t) && sources[x] == {MemberActor(x)}
  }
}
