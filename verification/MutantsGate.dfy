/** The verdict tool: tallying a report, emitting a baseline from it, checking it against one. */
module MutantsGate {
  import opened Basics
  import opened MutantsModel

  datatype Fault =
    | BaselineMissing
    | BaselineRepeated
    | BaselineFailed
    | NoCandidates
    | DuplicateCandidate
    | DuplicateReview
    | StaleReview
    | UnexpectedOutcome
    | IdentityChanged
    | DuplicateOutcome
    | ReviewNoLongerMissed
    | InvalidOutcome
    | MissingOutcome
    | SurvivorOrTimeout
    | ZeroButNotUnviable

  datatype Result<T> = Ok(value: T) | Err(fault: Fault)

  // -------------------------------------------------------------- the report

  method CheckUnmutated(outcomes: seq<Outcome>) returns (r: Option<Fault>)
    ensures r.None? <==> CountUnmutated(outcomes) == 1 && forall o :: o in outcomes && o.scenario.Unmutated? ==> o.summary.Success?
    ensures r.Some? ==> !r.value.ZeroButNotUnviable?
  {
    var found: Option<Summary> := None;
    var repeated := false;
    for i := 0 to |outcomes|
      invariant CountUnmutated(outcomes[..i]) >= One(found.Some?) && (found.None? ==> CountUnmutated(outcomes[..i]) == 0)
      invariant repeated <==> CountUnmutated(outcomes[..i]) > 1
      invariant found.Some? ==> exists o :: o in outcomes[..i] && o.scenario.Unmutated? && o.summary == found.value
      invariant !repeated ==> forall o :: o in outcomes[..i] && o.scenario.Unmutated? ==> found == Some(o.summary)
    {
      assert outcomes[..i + 1] == outcomes[..i] + [outcomes[i]];
      NamedAppend(outcomes[..i], [outcomes[i]], "");
      assert CountUnmutated([outcomes[i]]) == One(outcomes[i].scenario.Unmutated?) by {
        assert [outcomes[i]][..0] == [];
      }
      if outcomes[i].scenario.Unmutated? {
        if found.Some? {
          repeated := true;
        } else {
          found := Some(outcomes[i].summary);
        }
      }
    }
    assert outcomes[..|outcomes|] == outcomes;
    if found.None? {
      return Some(BaselineMissing);
    }
    if repeated {
      return Some(BaselineRepeated);
    }
    if !found.value.Success? {
      return Some(BaselineFailed);
    }
    return None;
  }

  ghost predicate Expects(expected: map<string, string>, candidates: seq<Candidate>) {
    && expected.Keys == Names(candidates)
    && forall c :: c in candidates ==> expected[c.name] == Key(c.file, c.inner)
  }

  method IndexCandidates(candidates: seq<Candidate>) returns (r: Result<map<string, string>>)
    ensures r.Ok? <==> DistinctCandidates(candidates)
    ensures r.Ok? ==> Expects(r.value, candidates)
    ensures r.Err? ==> !r.fault.ZeroButNotUnviable?
  {
    var expected: map<string, string> := map[];
    for i := 0 to |candidates|
      invariant DistinctCandidates(candidates[..i]) && Expects(expected, candidates[..i])
    {
      var c := candidates[i];
      assert candidates[..i + 1] == candidates[..i] + [c];
      if c.name in expected {
        return Err(DuplicateCandidate);
      }
      expected := expected[c.name := Key(c.file, c.inner)];
    }
    assert candidates[..|candidates|] == candidates;
    return Ok(expected);
  }

  method CheckReviews(equivalent: seq<string>, expected: map<string, string>) returns (r: Option<Fault>)
    ensures r.None? <==> DistinctStrings(equivalent) && forall n :: n in equivalent ==> n in expected
    ensures r.Some? ==> !r.value.ZeroButNotUnviable?
  {
    var reviewed: set<string> := {};
    var repeated := false;
    for i := 0 to |equivalent|
      invariant forall n :: n in reviewed <==> n in equivalent[..i]
      invariant repeated <==> !DistinctStrings(equivalent[..i])
    {
      assert equivalent[..i + 1] == equivalent[..i] + [equivalent[i]];
      repeated := repeated || equivalent[i] in reviewed;
      reviewed := reviewed + {equivalent[i]};
    }
    assert equivalent[..|equivalent|] == equivalent;
    if repeated {
      return Some(DuplicateReview);
    }
    for i := 0 to |equivalent|
      invariant forall j :: 0 <= j < i ==> equivalent[j] in expected
    {
      if equivalent[i] !in expected {
        return Some(StaleReview);
      }
    }
    return None;
  }

  // ------------------------------------------------------------- the tallies

  ghost predicate IsTally(tallies: map<string, Tally>, outcomes: seq<Outcome>, reviewed: set<string>) {
    forall key ::
      && (key in tallies <==> HasTally(outcomes, key, reviewed))
      && (key in tallies ==> tallies[key] == TallyOf(outcomes, key, reviewed))
  }

  function Add(tally: Tally, o: Outcome, reviewed: set<string>): Tally
    requires o.scenario.Mutant?
  {
    Tally(tally.total + 1,
          tally.viable + One(InColumn(o, Viable, reviewed)),
          tally.unviable + One(InColumn(o, NotViable, reviewed)),
          tally.missed + One(InColumn(o, Survivor, reviewed)),
          tally.timeout + One(InColumn(o, TimedOut, reviewed)))
  }

  lemma TallyGrows(outcomes: seq<Outcome>, o: Outcome, key: string, reviewed: set<string>)
    ensures TallyOf(outcomes + [o], key, reviewed) ==
      if o.scenario.Mutant? && KeyOf(o) == key then Add(TallyOf(outcomes, key, reviewed), o, reviewed)
      else TallyOf(outcomes, key, reviewed)
  {
    assert (outcomes + [o])[..|outcomes|] == outcomes;
  }

  lemma NoTallyIsZero(outcomes: seq<Outcome>, key: string, reviewed: set<string>)
    requires !HasTally(outcomes, key, reviewed)
    ensures TallyOf(outcomes, key, reviewed) == Tally(0, 0, 0, 0, 0)
  {
    CountsAreOrdered(outcomes, {key}, Viable, reviewed);
    CountsAreOrdered(outcomes, {key}, NotViable, reviewed);
    CountsAreOrdered(outcomes, {key}, Survivor, reviewed);
    CountsAreOrdered(outcomes, {key}, TimedOut, reviewed);
  }

  lemma TalliesGrow(tallies: map<string, Tally>, outcomes: seq<Outcome>, o: Outcome, reviewed: set<string>)
    requires IsTally(tallies, outcomes, reviewed) && o.scenario.Mutant?
    ensures var key := KeyOf(o);
      var before := if key in tallies then tallies[key] else Tally(0, 0, 0, 0, 0);
      IsTally(tallies[key := Add(before, o, reviewed)], outcomes + [o], reviewed)
  {
    forall key ensures TallyOf(outcomes + [o], key, reviewed) ==
      if KeyOf(o) == key then Add(TallyOf(outcomes, key, reviewed), o, reviewed) else TallyOf(outcomes, key, reviewed)
    {
      TallyGrows(outcomes, o, key, reviewed);
    }
    if KeyOf(o) !in tallies {
      NoTallyIsZero(outcomes, KeyOf(o), reviewed);
    }
  }

  lemma TalliesSkip(tallies: map<string, Tally>, outcomes: seq<Outcome>, o: Outcome, reviewed: set<string>)
    requires IsTally(tallies, outcomes, reviewed) && o.scenario.Unmutated?
    ensures IsTally(tallies, outcomes + [o], reviewed)
  {
    forall key ensures TallyOf(outcomes + [o], key, reviewed) == TallyOf(outcomes, key, reviewed) {
      TallyGrows(outcomes, o, key, reviewed);
    }
  }

  /** Every name so far was observed once. */
  ghost predicate Observed(observed: set<string>, outcomes: seq<Outcome>) {
    forall n :: CountNamed(outcomes, n) == One(n in observed)
  }

  lemma ObservedGrows(observed: set<string>, outcomes: seq<Outcome>, o: Outcome)
    requires Observed(observed, outcomes) && (o.scenario.Mutant? ==> o.scenario.name !in observed)
    ensures Observed(if o.scenario.Mutant? then observed + {o.scenario.name} else observed, outcomes + [o])
  {
    assert (outcomes + [o])[..|outcomes|] == outcomes;
  }

  lemma {:induction false} RepeatedStaysRepeated(outcomes: seq<Outcome>, i: nat, name: string)
    requires i <= |outcomes|
    ensures CountNamed(outcomes[..i], name) <= CountNamed(outcomes, name)
  {
    assert outcomes == outcomes[..i] + outcomes[i..];
    NamedAppend(outcomes[..i], outcomes[i..], name);
  }

  lemma ObservedTwice(observed: set<string>, outcomes: seq<Outcome>, i: nat)
    requires i < |outcomes| && Observed(observed, outcomes[..i])
    requires outcomes[i].scenario.Mutant? && outcomes[i].scenario.name in observed
    ensures CountNamed(outcomes, outcomes[i].scenario.name) >= 2
  {
    assert outcomes[..i + 1][..i] == outcomes[..i];
    RepeatedStaysRepeated(outcomes, i + 1, outcomes[i].scenario.name);
  }

  /** The outcome of a candidate, under the candidate's key. */
  predicate Identified(o: Outcome, expected: map<string, string>)
    requires o.scenario.Mutant?
  {
    o.scenario.name in expected && KeyOf(o) == expected[o.scenario.name]
  }

  /** Judging one mutant outcome against its candidate, the outcomes before it and its review,
      in this order. */
  method Judge(o: Outcome, expected: map<string, string>, observed: set<string>, reviewed: set<string>, ghost candidates: seq<Candidate>)
    returns (r: Option<Fault>)
    requires o.scenario.Mutant? && Expects(expected, candidates)
    ensures r.Some? ==> !r.value.ZeroButNotUnviable?
    ensures r.None? <==> OutcomeOk(o, candidates, reviewed) && o.scenario.name !in observed
    ensures r == Some(DuplicateOutcome) <==> Identified(o, expected) && o.scenario.name in observed
  {
    var name := o.scenario.name;
    if name !in expected {
      return Some(UnexpectedOutcome);
    }
    ghost var c :| c in candidates && c.name == name;
    if KeyOf(o) != expected[name] {
      return Some(IdentityChanged);
    }
    if name in observed {
      return Some(DuplicateOutcome);
    }
    if name in reviewed && !o.summary.Missed? {
      return Some(ReviewNoLongerMissed);
    }
    if o.summary.Success? || o.summary.Failure? {
      return Some(InvalidOutcome);
    }
    return None;
  }

  method TallyOutcomes(outcomes: seq<Outcome>, expected: map<string, string>, reviewed: set<string>, ghost candidates: seq<Candidate>)
    returns (r: Result<map<string, Tally>>)
    requires Expects(expected, candidates)
    ensures r.Ok? <==>
      && (forall o :: o in outcomes ==> OutcomeOk(o, candidates, reviewed))
      && (forall n :: CountNamed(outcomes, n) == One(n in Names(candidates)))
    ensures r.Ok? ==> IsTally(r.value, outcomes, reviewed)
    ensures r.Err? ==> !r.fault.ZeroButNotUnviable?
  {
    var tallies: map<string, Tally> := map[];
    var observed: set<string> := {};
    for i := 0 to |outcomes|
      invariant forall j :: 0 <= j < i ==> OutcomeOk(outcomes[j], candidates, reviewed)
      invariant Observed(observed, outcomes[..i]) && observed <= expected.Keys
      invariant IsTally(tallies, outcomes[..i], reviewed)
    {
      var o := outcomes[i];
      assert outcomes[..i + 1] == outcomes[..i] + [o] && o in outcomes;
      if o.scenario.Unmutated? {
        TalliesSkip(tallies, outcomes[..i], o, reviewed);
        ObservedGrows(observed, outcomes[..i], o);
      } else {
        var fault := Judge(o, expected, observed, reviewed, candidates);
        if fault.Some? {
          if o.scenario.name in observed {
            ObservedTwice(observed, outcomes, i);
          }
          return Err(fault.value);
        }
        ObservedGrows(observed, outcomes[..i], o);
        TalliesGrow(tallies, outcomes[..i], o, reviewed);
        observed := observed + {o.scenario.name};
        var before := if KeyOf(o) in tallies then tallies[KeyOf(o)] else Tally(0, 0, 0, 0, 0);
        tallies := tallies[KeyOf(o) := Add(before, o, reviewed)];
      }
    }
    assert outcomes[..|outcomes|] == outcomes;
    if expected.Keys <= observed {
      return Ok(tallies);
    }
    ghost var n :| n in expected && n !in observed;
    assert CountNamed(outcomes, n) == 0;
    return Err(MissingOutcome);
  }

  /** Tallying succeeds exactly on complete reports, and counts every column per key. */
  method Tallies(outcomes: seq<Outcome>, candidates: seq<Candidate>, equivalent: seq<string>)
    returns (r: Result<map<string, Tally>>)
    ensures r.Ok? <==> CompleteReport(outcomes, candidates, equivalent)
    ensures r.Ok? ==> IsTally(r.value, outcomes, Reviewed(equivalent))
    ensures r.Err? ==> !r.fault.ZeroButNotUnviable?
  {
    var fault := CheckUnmutated(outcomes);
    if fault.Some? {
      return Err(fault.value);
    }
    if candidates == [] {
      return Err(NoCandidates);
    }
    var indexed := IndexCandidates(candidates);
    if indexed.Err? {
      return Err(indexed.fault);
    }
    fault := CheckReviews(equivalent, indexed.value);
    if fault.Some? {
      return Err(fault.value);
    }
    r := TallyOutcomes(outcomes, indexed.value, Reviewed(equivalent), candidates);
  }

  // ----------------------------------------------------------- emit and check

  ghost predicate Survives(outcomes: seq<Outcome>, key: string, reviewed: set<string>) {
    var tally := TallyOf(outcomes, key, reviewed);
    HasTally(outcomes, key, reviewed) && (tally.missed > 0 || tally.timeout > 0)
  }

  method CheckSeed(tally: Tally) returns (r: Option<Fault>)
    ensures r.None? <==> tally.missed == 0 && tally.timeout == 0 && (tally.viable == 0 ==> tally.unviable == tally.total)
    ensures r == Some(ZeroButNotUnviable) ==> tally.viable == 0 && tally.unviable != tally.total
    ensures r.Some? ==> r.value.SurvivorOrTimeout? || r.value.ZeroButNotUnviable?
  {
    if tally.missed > 0 || tally.timeout > 0 {
      return Some(SurvivorOrTimeout);
    }
    if tally.viable == 0 && tally.unviable != tally.total {
      return Some(ZeroButNotUnviable);
    }
    return None;
  }

  /** Emission succeeds exactly on a complete report without survivors and timeouts, and the
      baseline it emits is the one that the report seeds. */
  method EmitBaseline(outcomes: seq<Outcome>, candidates: seq<Candidate>, equivalent: seq<string>) returns (r: Result<Baseline>)
    ensures r.Ok? ==> r.value.equivalent == equivalent && Seeds(outcomes, candidates, r.value)
    ensures r.Err? ==>
      || !CompleteReport(outcomes, candidates, equivalent)
      || exists key :: Survives(outcomes, key, Reviewed(equivalent))
    ensures r.Err? ==> !r.fault.ZeroButNotUnviable?
  {
    var tallied := Tallies(outcomes, candidates, equivalent);
    if tallied.Err? {
      return Err(tallied.fault);
    }
    var tallies := tallied.value;
    var floors: map<string, nat> := map[];
    var zero: seq<string> := [];
    var left := tallies.Keys;
    while left != {}
      invariant left <= tallies.Keys && DistinctStrings(zero)
      invariant forall key :: key in floors || key in zero ==> key in tallies && key !in left
      invariant forall key :: key in tallies && key !in left ==>
        && tallies[key].missed == 0 && tallies[key].timeout == 0
        && if tallies[key].viable == 0 then key in zero && key !in floors
           else key in floors && floors[key] == tallies[key].viable && key !in zero
      decreases |left|
    {
      var key :| key in left;
      left := left - {key};
      var tally := tallies[key];
      var fault := CheckSeed(tally);
      if fault.Some? {
        TotalIsViablePlusUnviable(outcomes, {key}, Reviewed(equivalent));
        assert Survives(outcomes, key, Reviewed(equivalent));
        return Err(fault.value);
      }
      if tally.viable == 0 {
        zero := zero + [key];
      } else {
        floors := floors[key := tally.viable];
      }
    }
    return Ok(Baseline(floors, zero, equivalent));
  }

  /** Whether the baseline itself gives nothing to complain about. */
  method CheckBaseline(candidates: seq<Candidate>, b: Baseline) returns (ok: bool)
    ensures ok <==>
      && DistinctStrings(b.knownZero)
      && (forall key :: key in b.floors ==> b.floors[key] > 0 && key in Keys(candidates))
      && (forall key :: key in b.knownZero ==> key in Keys(candidates) && key !in b.floors)
  {
    var expected := Keys(candidates);
    ok := true;
    var known: set<string> := {};
    for i := 0 to |b.knownZero|
      invariant forall n :: n in known <==> n in b.knownZero[..i]
      invariant ok <==>
        && DistinctStrings(b.knownZero[..i])
        && forall j :: 0 <= j < i ==> b.knownZero[j] in expected && b.knownZero[j] !in b.floors
    {
      var key := b.knownZero[i];
      assert b.knownZero[..i + 1] == b.knownZero[..i] + [key];
      if key in known || key !in expected || key in b.floors {
        ok := false;
      }
      known := known + {key};
    }
    assert b.knownZero[..|b.knownZero|] == b.knownZero;
    var left := b.floors.Keys;
    ghost var zeroOk := ok;
    while left != {}
      invariant left <= b.floors.Keys
      invariant ok <==> zeroOk && forall key :: key in b.floors && key !in left ==> b.floors[key] > 0 && key in expected
      decreases |left|
    {
      var key :| key in left;
      left := left - {key};
      if b.floors[key] == 0 || key !in expected {
        ok := false;
      }
    }
  }

  /** The verdict on one key. */
  predicate KeyPasses(key: string, tally: Tally, b: Baseline) {
    && tally.missed == 0 && tally.timeout == 0
    && (key in b.floors ==> b.floors[key] <= tally.viable)
    && (key !in b.floors ==> key in b.knownZero && tally.viable == 0 && tally.unviable == tally.total)
  }

  method CheckTallies(tallies: map<string, Tally>, b: Baseline) returns (ok: bool)
    ensures ok <==> forall key :: key in tallies ==> KeyPasses(key, tallies[key], b)
  {
    ok := true;
    var left := tallies.Keys;
    while left != {}
      invariant left <= tallies.Keys
      invariant ok <==> forall key :: key in tallies && key !in left ==> KeyPasses(key, tallies[key], b)
      decreases |left|
    {
      var key :| key in left;
      left := left - {key};
      if !KeyPasses(key, tallies[key], b) {
        ok := false;
      }
    }
  }

  /** The coverage line: the totals over all keys. */
  method Coverage(tallies: map<string, Tally>, ghost outcomes: seq<Outcome>, ghost reviewed: set<string>) returns (viable: nat, total: nat)
    requires IsTally(tallies, outcomes, reviewed)
    ensures viable == Count(outcomes, tallies.Keys, Viable, reviewed) && total == Count(outcomes, tallies.Keys, Total, reviewed)
  {
    viable, total := 0, 0;
    var left := tallies.Keys;
    ghost var done: set<string> := {};
    CountNothing(outcomes, reviewed);
    while left != {}
      invariant left !! done && left + done == tallies.Keys
      invariant viable == Count(outcomes, done, Viable, reviewed) && total == Count(outcomes, done, Total, reviewed)
      decreases |left|
    {
      var key :| key in left;
      CountsOverKeys(outcomes, done, key, Total, reviewed);
      CountsOverKeys(outcomes, done, key, Viable, reviewed);
      left, done := left - {key}, done + {key};
      viable, total := viable + tallies[key].viable, total + tallies[key].total;
    }
    assert done == tallies.Keys;
  }

  /** The check passes exactly when the report passes; it then reports as its total every
      candidate, split into viable and not. */
  method Check(outcomes: seq<Outcome>, candidates: seq<Candidate>, b: Baseline) returns (ok: bool, viable: nat, total: nat)
    ensures ok <==> Passes(outcomes, candidates, b)
    ensures CompleteReport(outcomes, candidates, b.equivalent) ==> total == |candidates| && viable <= total
  {
    var tallied := Tallies(outcomes, candidates, b.equivalent);
    if tallied.Err? {
      return false, 0, 0;
    }
    var tallies := tallied.value;
    var sound := CheckBaseline(candidates, b);
    var passed := CheckTallies(tallies, b);
    ok := sound && passed;
    PassesByKey(outcomes, candidates, b, tallies);
    viable, total := Coverage(tallies, outcomes, Reviewed(b.equivalent));
    CountsAreOrdered(outcomes, tallies.Keys, Viable, Reviewed(b.equivalent));
    EveryCandidateIsCounted(outcomes, candidates, b.equivalent, tallies);
  }

  lemma PassesByKey(outcomes: seq<Outcome>, candidates: seq<Candidate>, b: Baseline, tallies: map<string, Tally>)
    requires CompleteReport(outcomes, candidates, b.equivalent) && IsTally(tallies, outcomes, Reviewed(b.equivalent))
    ensures Passes(outcomes, candidates, b) <==>
      && DistinctStrings(b.knownZero)
      && (forall key :: key in b.floors ==> b.floors[key] > 0 && key in Keys(candidates))
      && (forall key :: key in b.knownZero ==> key in Keys(candidates) && key !in b.floors)
      && forall key :: key in tallies ==> KeyPasses(key, tallies[key], b)
  {
  }

  lemma {:induction false} CountNothing(outcomes: seq<Outcome>, reviewed: set<string>)
    ensures Count(outcomes, {}, Total, reviewed) == 0 && Count(outcomes, {}, Viable, reviewed) == 0
    decreases |outcomes|
  {
    if outcomes != [] {
      CountNothing(outcomes[..|outcomes| - 1], reviewed);
    }
  }

  // --------------------------------------------------------- nobody is missing

  function NamesIn(outcomes: seq<Outcome>): set<string> {
    set o | o in outcomes && o.scenario.Mutant? :: o.scenario.name
  }

  lemma {:induction false} NamedIsIn(outcomes: seq<Outcome>, name: string)
    ensures CountNamed(outcomes, name) > 0 <==> name in NamesIn(outcomes)
    decreases |outcomes|
  {
    if outcomes != [] {
      var earlier, last := outcomes[..|outcomes| - 1], outcomes[|outcomes| - 1];
      assert outcomes == earlier + [last];
      NamedIsIn(earlier, name);
      assert forall o :: o in outcomes <==> o in earlier || o == last;
    }
  }

  /** Distinct mutants are as many as their names. */
  lemma {:induction false} CountIsNames(outcomes: seq<Outcome>, keys: set<string>, reviewed: set<string>)
    requires forall n :: CountNamed(outcomes, n) <= 1
    requires forall o :: o in outcomes && o.scenario.Mutant? ==> KeyOf(o) in keys
    ensures Count(outcomes, keys, Total, reviewed) == |NamesIn(outcomes)|
    decreases |outcomes|
  {
    if outcomes != [] {
      var earlier, last := outcomes[..|outcomes| - 1], outcomes[|outcomes| - 1];
      assert outcomes == earlier + [last] && last in outcomes;
      assert forall o :: o in outcomes <==> o in earlier || o == last;
      forall n ensures CountNamed(earlier, n) <= 1 {
        assert CountNamed(outcomes, n) <= 1;
      }
      CountIsNames(earlier, keys, reviewed);
      if last.scenario.Mutant? {
        NamedIsIn(earlier, last.scenario.name);
        assert CountNamed(outcomes, last.scenario.name) <= 1;
        assert NamesIn(outcomes) == NamesIn(earlier) + {last.scenario.name};
      } else {
        assert NamesIn(outcomes) == NamesIn(earlier);
      }
    }
  }

  lemma {:induction false} NamesAreCandidates(candidates: seq<Candidate>)
    requires DistinctCandidates(candidates)
    ensures |Names(candidates)| == |candidates|
    decreases |candidates|
  {
    if candidates != [] {
      var earlier, last := candidates[..|candidates| - 1], candidates[|candidates| - 1];
      assert candidates == earlier + [last];
      assert forall c :: c in candidates <==> c in earlier || c == last;
      NamesAreCandidates(earlier);
      assert Names(candidates) == Names(earlier) + {last.name};
    } else {
      assert Names(candidates) == {};
    }
  }

  lemma {:induction false} MutantsAreTallied(outcomes: seq<Outcome>, o: Outcome, reviewed: set<string>)
    requires o in outcomes && o.scenario.Mutant?
    ensures HasTally(outcomes, KeyOf(o), reviewed)
    decreases |outcomes|
  {
    if outcomes[|outcomes| - 1] != o {
      assert o in outcomes[..|outcomes| - 1];
      MutantsAreTallied(outcomes[..|outcomes| - 1], o, reviewed);
    }
  }

  /** The totals of a complete report add up to its candidates. */
  lemma EveryCandidateIsCounted(outcomes: seq<Outcome>, candidates: seq<Candidate>, equivalent: seq<string>, tallies: map<string, Tally>)
    requires CompleteReport(outcomes, candidates, equivalent) && IsTally(tallies, outcomes, Reviewed(equivalent))
    ensures Count(outcomes, tallies.Keys, Total, Reviewed(equivalent)) == |candidates|
  {
    forall o | o in outcomes && o.scenario.Mutant? ensures KeyOf(o) in tallies.Keys {
      MutantsAreTallied(outcomes, o, Reviewed(equivalent));
    }
    forall n ensures n in NamesIn(outcomes) <==> n in Names(candidates) {
      NamedIsIn(outcomes, n);
    }
    assert NamesIn(outcomes) == Names(candidates);
    CountIsNames(outcomes, tallies.Keys, Reviewed(equivalent));
    NamesAreCandidates(candidates);
  }
}
