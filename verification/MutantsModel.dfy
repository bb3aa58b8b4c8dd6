/** What a mutation-testing report means: who counts where, when a report is complete, what
    a baseline promises, and why an emitted baseline passes its own check. */
module MutantsModel {
  import opened Basics

  datatype Summary = Success | Caught | Missed | Unviable | Timeout | Failure

  datatype Scenario = Unmutated | Mutant(name: string, file: string, inner: Option<string>)

  datatype Outcome = Outcome(summary: Summary, scenario: Scenario)

  datatype Candidate = Candidate(name: string, file: string, inner: Option<string>)

  datatype Tally = Tally(total: nat, viable: nat, unviable: nat, missed: nat, timeout: nat)

  datatype Baseline = Baseline(floors: map<string, nat>, knownZero: seq<string>, equivalent: seq<string>)

  function Key(file: string, inner: Option<string>): string {
    if inner.Some? then file + "::" + inner.value else file + "::<module>"
  }

  function KeyOf(o: Outcome): string
    requires o.scenario.Mutant?
  {
    Key(o.scenario.file, o.scenario.inner)
  }

  // ---------------------------------------------------------------- counting

  /** The columns of a tally. A reviewed equivalent is not a survivor. */
  datatype Column = Total | Viable | NotViable | Survivor | TimedOut

  predicate InColumn(o: Outcome, column: Column, reviewed: set<string>)
    requires o.scenario.Mutant?
  {
    match column
    case Total => true
    case Viable => o.summary.Caught? || o.summary.Missed? || o.summary.Timeout?
    case NotViable => o.summary.Unviable?
    case Survivor => o.summary.Missed? && o.scenario.name !in reviewed
    case TimedOut => o.summary.Timeout?
  }

  predicate Counted(o: Outcome, keys: set<string>, column: Column, reviewed: set<string>) {
    o.scenario.Mutant? && KeyOf(o) in keys && InColumn(o, column, reviewed)
  }

  function Count(outcomes: seq<Outcome>, keys: set<string>, column: Column, reviewed: set<string>): nat {
    if outcomes == [] then 0
    else Count(outcomes[..|outcomes| - 1], keys, column, reviewed) + One(Counted(outcomes[|outcomes| - 1], keys, column, reviewed))
  }

  function TallyOf(outcomes: seq<Outcome>, key: string, reviewed: set<string>): Tally {
    Tally(Count(outcomes, {key}, Total, reviewed), Count(outcomes, {key}, Viable, reviewed),
          Count(outcomes, {key}, NotViable, reviewed), Count(outcomes, {key}, Survivor, reviewed),
          Count(outcomes, {key}, TimedOut, reviewed))
  }

  function CountNamed(outcomes: seq<Outcome>, name: string): nat {
    if outcomes == [] then 0
    else
      var last := outcomes[|outcomes| - 1];
      CountNamed(outcomes[..|outcomes| - 1], name) + One(last.scenario.Mutant? && last.scenario.name == name)
  }

  function CountUnmutated(outcomes: seq<Outcome>): nat {
    if outcomes == [] then 0
    else CountUnmutated(outcomes[..|outcomes| - 1]) + One(outcomes[|outcomes| - 1].scenario.Unmutated?)
  }

  // ------------------------------------------------------------ completeness

  function Names(candidates: seq<Candidate>): set<string> {
    set c | c in candidates :: c.name
  }

  function Keys(candidates: seq<Candidate>): set<string> {
    set c | c in candidates :: Key(c.file, c.inner)
  }

  predicate DistinctCandidates(candidates: seq<Candidate>) {
    forall i, j :: 0 <= i < j < |candidates| ==> candidates[i].name != candidates[j].name
  }

  predicate DistinctStrings(s: seq<string>) {
    forall i, j :: 0 <= i < j < |s| ==> s[i] != s[j]
  }

  /** A mutant outcome that keeps its candidate's identity and its review. */
  ghost predicate OutcomeOk(o: Outcome, candidates: seq<Candidate>, reviewed: set<string>) {
    o.scenario.Mutant? ==>
      && (exists c :: c in candidates && c.name == o.scenario.name && Key(c.file, c.inner) == KeyOf(o))
      && !o.summary.Success? && !o.summary.Failure?
      && (o.scenario.name in reviewed ==> o.summary.Missed?)
  }

  /** One passing unmutated run, distinct candidates, live reviews, and every candidate
      observed exactly once and nothing else. */
  ghost predicate CompleteReport(outcomes: seq<Outcome>, candidates: seq<Candidate>, equivalent: seq<string>) {
    && CountUnmutated(outcomes) == 1
    && (forall o :: o in outcomes && o.scenario.Unmutated? ==> o.summary.Success?)
    && candidates != [] && DistinctCandidates(candidates)
    && DistinctStrings(equivalent) && (forall n :: n in equivalent ==> n in Names(candidates))
    && (forall o :: o in outcomes ==> OutcomeOk(o, candidates, Reviewed(equivalent)))
    && (forall n :: CountNamed(outcomes, n) == One(n in Names(candidates)))
  }

  function Reviewed(equivalent: seq<string>): set<string> {
    set n | n in equivalent
  }

  // -------------------------------------------------------- order does not matter

  lemma {:induction false} CountsAppend(a: seq<Outcome>, b: seq<Outcome>, keys: set<string>, column: Column, reviewed: set<string>)
    ensures Count(a + b, keys, column, reviewed) == Count(a, keys, column, reviewed) + Count(b, keys, column, reviewed)
    decreases |b|
  {
    if b == [] {
      assert a + b == a;
    } else {
      assert (a + b)[..|a + b| - 1] == a + b[..|b| - 1];
      CountsAppend(a, b[..|b| - 1], keys, column, reviewed);
    }
  }

  lemma {:induction false} NamedAppend(a: seq<Outcome>, b: seq<Outcome>, name: string)
    ensures CountNamed(a + b, name) == CountNamed(a, name) + CountNamed(b, name)
    ensures CountUnmutated(a + b) == CountUnmutated(a) + CountUnmutated(b)
    decreases |b|
  {
    if b == [] {
      assert a + b == a;
    } else {
      assert (a + b)[..|a + b| - 1] == a + b[..|b| - 1];
      NamedAppend(a, b[..|b| - 1], name);
    }
  }

  /** The last element of one order, found in the other. */
  lemma Relocate(a: seq<Outcome>, b: seq<Outcome>) returns (i: nat)
    requires multiset(a) == multiset(b) && a != []
    ensures i < |b| && b[i] == a[|a| - 1]
    ensures multiset(a[..|a| - 1]) == multiset(b[..i] + b[i + 1..]) && b == b[..i] + ([b[i]] + b[i + 1..])
  {
    var last := a[|a| - 1];
    assert a == a[..|a| - 1] + [last];
    assert last in multiset(b);
    i :| 0 <= i < |b| && b[i] == last;
    assert b == b[..i] + ([b[i]] + b[i + 1..]);
    assert multiset(b) == multiset(b[..i]) + multiset{last} + multiset(b[i + 1..]);
    assert multiset(b[..i] + b[i + 1..]) == multiset(b[..i]) + multiset(b[i + 1..]);
    assert multiset(a[..|a| - 1]) == multiset(a) - multiset{last};
    assert multiset(b[..i]) + multiset(b[i + 1..]) == multiset(b) - multiset{last};
  }

  lemma {:induction false} CountsOfPermutation(a: seq<Outcome>, b: seq<Outcome>, keys: set<string>, column: Column, reviewed: set<string>, name: string)
    requires multiset(a) == multiset(b)
    ensures Count(a, keys, column, reviewed) == Count(b, keys, column, reviewed)
    ensures CountNamed(a, name) == CountNamed(b, name) && CountUnmutated(a) == CountUnmutated(b)
    decreases |a|
  {
    if a == [] {
      assert |multiset(b)| == 0;
    } else {
      var i := Relocate(a, b);
      CountsOfPermutation(a[..|a| - 1], b[..i] + b[i + 1..], keys, column, reviewed, name);
      CountsAppend(b[..i], [b[i]] + b[i + 1..], keys, column, reviewed);
      CountsAppend([b[i]], b[i + 1..], keys, column, reviewed);
      CountsAppend(b[..i], b[i + 1..], keys, column, reviewed);
      NamedAppend(b[..i], [b[i]] + b[i + 1..], name);
      NamedAppend([b[i]], b[i + 1..], name);
      NamedAppend(b[..i], b[i + 1..], name);
      assert [b[i]][..0] == [];
    }
  }

  /** A report is complete, with the same tallies, in any order of its outcomes. */
  lemma OrderDoesNotMatter(a: seq<Outcome>, b: seq<Outcome>, candidates: seq<Candidate>, equivalent: seq<string>)
    requires multiset(a) == multiset(b)
    ensures CompleteReport(a, candidates, equivalent) <==> CompleteReport(b, candidates, equivalent)
    ensures forall key :: TallyOf(a, key, Reviewed(equivalent)) == TallyOf(b, key, Reviewed(equivalent))
  {
    var reviewed := Reviewed(equivalent);
    forall key ensures TallyOf(a, key, reviewed) == TallyOf(b, key, reviewed) {
      CountsOfPermutation(a, b, {key}, Total, reviewed, "");
      CountsOfPermutation(a, b, {key}, Viable, reviewed, "");
      CountsOfPermutation(a, b, {key}, NotViable, reviewed, "");
      CountsOfPermutation(a, b, {key}, Survivor, reviewed, "");
      CountsOfPermutation(a, b, {key}, TimedOut, reviewed, "");
    }
    if CompleteReport(a, candidates, equivalent) {
      CompleteInAnyOrder(a, b, candidates, equivalent);
    } else if CompleteReport(b, candidates, equivalent) {
      CompleteInAnyOrder(b, a, candidates, equivalent);
    }
  }

  lemma CompleteInAnyOrder(a: seq<Outcome>, b: seq<Outcome>, candidates: seq<Candidate>, equivalent: seq<string>)
    requires multiset(a) == multiset(b) && CompleteReport(a, candidates, equivalent)
    ensures CompleteReport(b, candidates, equivalent)
  {
    var reviewed := Reviewed(equivalent);
    CountsOfPermutation(a, b, {}, Total, reviewed, "");
    forall n ensures CountNamed(b, n) == One(n in Names(candidates)) {
      CountsOfPermutation(a, b, {}, Total, reviewed, n);
    }
    forall o | o in b ensures o in a {
      assert o in multiset(b);
    }
  }

  // -------------------------------------------------------------- conservation

  lemma {:induction false} CountsOverKeys(outcomes: seq<Outcome>, keys: set<string>, key: string, column: Column, reviewed: set<string>)
    requires key !in keys
    ensures Count(outcomes, keys + {key}, column, reviewed)
         == Count(outcomes, keys, column, reviewed) + Count(outcomes, {key}, column, reviewed)
    decreases |outcomes|
  {
    if outcomes != [] {
      CountsOverKeys(outcomes[..|outcomes| - 1], keys, key, column, reviewed);
    }
  }

  /** Every mutant with a verdict is either viable or not. */
  lemma {:induction false} TotalIsViablePlusUnviable(outcomes: seq<Outcome>, keys: set<string>, reviewed: set<string>)
    requires forall o :: o in outcomes && o.scenario.Mutant? ==> !o.summary.Success? && !o.summary.Failure?
    ensures Count(outcomes, keys, Total, reviewed)
         == Count(outcomes, keys, Viable, reviewed) + Count(outcomes, keys, NotViable, reviewed)
    decreases |outcomes|
  {
    if outcomes != [] {
      assert outcomes[|outcomes| - 1] in outcomes;
      TotalIsViablePlusUnviable(outcomes[..|outcomes| - 1], keys, reviewed);
    }
  }

  lemma {:induction false} CountsAreOrdered(outcomes: seq<Outcome>, keys: set<string>, column: Column, reviewed: set<string>)
    ensures Count(outcomes, keys, column, reviewed) <= Count(outcomes, keys, Total, reviewed)
    decreases |outcomes|
  {
    if outcomes != [] {
      CountsAreOrdered(outcomes[..|outcomes| - 1], keys, column, reviewed);
    }
  }

  // ----------------------------------------------------------------- baselines

  ghost predicate HasTally(outcomes: seq<Outcome>, key: string, reviewed: set<string>) {
    Count(outcomes, {key}, Total, reviewed) > 0
  }

  /** What the check demands of a report against a baseline. */
  ghost predicate Passes(outcomes: seq<Outcome>, candidates: seq<Candidate>, b: Baseline) {
    && CompleteReport(outcomes, candidates, b.equivalent)
    && DistinctStrings(b.knownZero)
    && (forall key :: key in b.floors ==> b.floors[key] > 0 && key in Keys(candidates))
    && (forall key :: key in b.knownZero ==> key in Keys(candidates) && key !in b.floors)
    && (forall key :: HasTally(outcomes, key, Reviewed(b.equivalent)) ==>
          var tally := TallyOf(outcomes, key, Reviewed(b.equivalent));
          && tally.missed == 0 && tally.timeout == 0
          && (key in b.floors ==> b.floors[key] <= tally.viable)
          && (key !in b.floors ==> key in b.knownZero && tally.viable == 0 && tally.unviable == tally.total))
  }

  /** What a report must be to seed a baseline, and the baseline that it seeds. */
  ghost predicate Seeds(outcomes: seq<Outcome>, candidates: seq<Candidate>, b: Baseline) {
    && CompleteReport(outcomes, candidates, b.equivalent)
    && DistinctStrings(b.knownZero)
    && (forall key :: HasTally(outcomes, key, Reviewed(b.equivalent)) ==>
          var tally := TallyOf(outcomes, key, Reviewed(b.equivalent));
          && tally.missed == 0 && tally.timeout == 0
          && if tally.viable == 0 then key in b.knownZero && key !in b.floors
             else key in b.floors && b.floors[key] == tally.viable && key !in b.knownZero)
    && (forall key :: key in b.floors || key in b.knownZero ==> HasTally(outcomes, key, Reviewed(b.equivalent)))
  }

  lemma {:induction false} TalliedIsExpected(outcomes: seq<Outcome>, candidates: seq<Candidate>, key: string, reviewed: set<string>)
    requires forall o :: o in outcomes ==> OutcomeOk(o, candidates, reviewed)
    requires HasTally(outcomes, key, reviewed)
    ensures key in Keys(candidates)
    decreases |outcomes|
  {
    var last := outcomes[|outcomes| - 1];
    assert last in outcomes;
    if !Counted(last, {key}, Total, reviewed) {
      TalliedIsExpected(outcomes[..|outcomes| - 1], candidates, key, reviewed);
    }
  }

  /** The round trip: a report that seeds a baseline passes the check against it. */
  lemma EmittedBaselinePasses(outcomes: seq<Outcome>, candidates: seq<Candidate>, b: Baseline)
    requires Seeds(outcomes, candidates, b)
    ensures Passes(outcomes, candidates, b)
  {
    var reviewed := Reviewed(b.equivalent);
    forall key | HasTally(outcomes, key, reviewed)
      ensures key in Keys(candidates)
      ensures TallyOf(outcomes, key, reviewed).total == TallyOf(outcomes, key, reviewed).viable + TallyOf(outcomes, key, reviewed).unviable
    {
      TalliedIsExpected(outcomes, candidates, key, reviewed);
      TotalIsViablePlusUnviable(outcomes, {key}, reviewed);
    }
  }
}
