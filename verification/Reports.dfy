/** The runtime's assessment of a retired actor: two independent axes of evidence. */
module Reports {

  datatype RetirementAssessment = Established | NotEstablished

  datatype FailureAssessment = FailuresFound | NoFailuresFound | Incomplete

  datatype Report = Report(retirement: RetirementAssessment, failures: FailureAssessment)

  function CombineFailures(a: FailureAssessment, b: FailureAssessment): FailureAssessment {
    if a.FailuresFound? || b.FailuresFound? then FailuresFound
    else if a.Incomplete? || b.Incomplete? then Incomplete
    else NoFailuresFound
  }

  function Combine(a: Report, b: Report): Report {
    Report(if a.retirement.Established? && b.retirement.Established? then Established else NotEstablished,
           CombineFailures(a.failures, b.failures))
  }

  function WithFailures(a: Report, failures: FailureAssessment): Report {
    Report(a.retirement, CombineFailures(a.failures, failures))
  }

  /** What is known for certain of an actor about which nothing bad is recorded. */
  const CLEAN := Report(Established, NoFailuresFound)

  function CombineAll(reports: seq<Report>): Report {
    if reports == [] then CLEAN else Combine(reports[0], CombineAll(reports[1..]))
  }

  /** Evidence is never lost and never invented, in whatever order and grouping a subtree
      is combined: established means established everywhere, a failure is found exactly
      when one part has it, and checking is incomplete exactly when no part has a failure
      and some part is. */
  lemma {:induction false} CombinedEvidence(reports: seq<Report>)
    ensures var all := CombineAll(reports);
      && (all.retirement.Established? <==> forall r :: r in reports ==> r.retirement.Established?)
      && (all.failures.FailuresFound? <==> exists r :: r in reports && r.failures.FailuresFound?)
      && (all.failures.NoFailuresFound? <==> forall r :: r in reports ==> r.failures.NoFailuresFound?)
  {
    if reports != [] {
      CombinedEvidence(reports[1..]);
      assert forall r :: r in reports <==> r == reports[0] || r in reports[1..];
    }
  }

  lemma CombinationIsSemilattice(a: Report, b: Report, c: Report)
    ensures Combine(a, b) == Combine(b, a) && Combine(a, Combine(b, c)) == Combine(Combine(a, b), c)
    ensures Combine(a, a) == a && Combine(a, CLEAN) == a
    ensures WithFailures(a, b.failures) == Combine(a, Report(Established, b.failures))
  {
  }
}
