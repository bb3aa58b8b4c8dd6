/** Properties of whole traces, for any host and any dropped loan: the shape of a turn, the
    order of phases, what is never repeated and what never follows a cause. */
module DriverHistory {
  import opened Basics
  import opened Counting
  import opened Operations
  import opened DriverModel
  import opened DriverInvariant
  import opened DriverCauses

  predicate IsRetirement(e: Event) {
    e.PreparedRetireCalled? || e.ActiveRetireCalled?
  }

  /** The loan was dropped while this call was pending. */
  predicate Suspended(e: Event) {
    match e
    case ActivateCalled(_, _, _, reply) => Receive(reply.run, None).abandoned
    case OfferCalled(_, _, _, _, _, ran, _) => ran.abandoned
    case EventRequested(_, acquired) => acquired.abandoned
    case ApplyCalled(_, _, reply) => Receive(reply.run, None).abandoned
    case PreparedRetireCalled(_, _, reply) => Receive(reply.run, None).abandoned
    case ActiveRetireCalled(_, _, _, _, _, _, _, reply) => Receive(reply.run, None).abandoned
    case _ => false
  }

  // ------------------------------------------------------------ trace shapes

  /** The events one turn can produce, by the state it starts from. */
  ghost predicate TurnShape(d: DriverState, events: seq<Event>) {
    match d.phase
    case Prepared => |events| == 1 && events[0].Initialized?
    case Activating => |events| == 1 && events[0].ActivateCalled?
    case Retiring => events == [] || (|events| == 1 && IsRetirement(events[0]))
    case RetirementAttempted => events == []
    case _ =>
      if d.interpretation.Some? then
        && 1 <= |events| <= 2 && events[0].StatusRead?
        && (|events| == 2 ==> events[1].OfferCalled?)
      else
        1 <= |events| &&
        if events[0].OfferCalled? then |events| == 1
        else if events[0].PublishCalled? then |events| == 1 && d.phase.SettlingInitialization?
        else RequestShape(events) && (!events[0].control ==> d.phase.Active?)
  }

  ghost predicate RequestShape(events: seq<Event>) {
    && 1 <= |events| <= 3
    && events[0].EventRequested?
    && (|events| >= 2 ==> events[1].Folded?)
    && (|events| == 3 ==> events[1].reply.Decided? && events[2].ApplyCalled?)
    && (|events| == 2 ==> !events[1].reply.Decided?)
  }

  lemma FoldIngressShape(d: DriverState, r: Round)
    requires d.active.Some?
    ensures var events := FoldIngress(d, r).events;
      && |events| <= 2
      && (|events| >= 1 ==> events[0].Folded?)
      && (|events| == 2 ==> events[0].reply.Decided? && events[1].ApplyCalled?)
      && (|events| == 1 ==> !events[0].reply.Decided?)
  {
  }

  lemma AcquireShape(d: DriverState, r: Round)
    requires d.active.Some?
    ensures RequestShape(AcquireControl(d, r).events) && AcquireControl(d, r).events[0].control
    ensures RequestShape(AcquireOrdinary(d, r).events) && !AcquireOrdinary(d, r).events[0].control
  {
    FoldIngressShape(d.(ingress := Receive(r.ingress, d.ingress).slot), r);
  }

  lemma SelectShape(d: DriverState, r: Round)
    requires d.active.Some? && (d.phase.SettlingInitialization? || d.phase.Active?)
    ensures var events := Select(d, r).events;
      || (|events| == 1 && events[0].OfferCalled?)
      || (|events| == 1 && events[0].PublishCalled? && d.phase.SettlingInitialization?)
      || (RequestShape(events) && (!events[0].control ==> d.phase.Active?))
  {
    if d.sourceIndex.None? {
      match NextRow(d.settlements)
      case None => AcquireShape(d, r);
      case Some(index) =>
        if d.settlements[index].AwaitSource? {
          AcquireShape(d.(settlements := Insert(Remove(d.settlements, index), index, Offer(d.settlements[index].settlement))), r);
        }
    }
  }

  /** A classified settlement heads the queue, so it is offered in the same turn. */
  lemma ClassifyOffers(d: DriverState, r: Round)
    requires Inv(d) && Running(d) && d.interpretation.Some?
    requires !Classify(d, r).driver.phase.Retiring?
    ensures var d1 := Classify(d, r).driver;
      && NextRow(d1.settlements) == Some(0) && d1.settlements[0].Offer?
      && Select(d1, r) == OfferHeld(Hold(d1, 0), r)
      && |Select(d1, r).events| == 1 && Select(d1, r).events[0].OfferCalled?
  {
  }

  lemma StepShape(d: DriverState, r: Round)
    requires Inv(d)
    ensures TurnShape(d, Step(d, r).events)
  {
    if Running(d) {
      if d.interpretation.Some? {
        ClassifyKeepsInv(d, r);
        if !Classify(d, r).driver.phase.Retiring? {
          ClassifyOffers(d, r);
        }
      } else {
        SelectShape(d, r);
      }
    }
  }

  // --------------------------------------------------------------- no replay

  function InitializationsLeft(d: DriverState): nat { One(d.phase.Prepared?) }

  function PublicationsLeft(d: DriverState): nat { One(!d.phase.Active? && !Terminal(d)) }

  function RetirementsLeft(d: DriverState): nat { One(!d.phase.RetirementAttempted?) }

  const isInitialization := (e: Event) => e.Initialized?
  const isPublication := (e: Event) => e.PublishCalled?
  const isRetirement := (e: Event) => IsRetirement(e)
  const isOffer := (e: Event) => e.OfferCalled?
  const isFold := (e: Event) => e.Folded?

  lemma OfferPhase(d: DriverState, r: Round)
    requires d.sourceIndex.Some?
    ensures OfferHeld(d, r).driver.phase in {d.phase, Retiring}
  {
  }

  lemma AcquirePhase(d: DriverState, r: Round)
    ensures AcquireControl(d, r).driver.phase in {d.phase, Retiring}
    ensures AcquireOrdinary(d, r).driver.phase in {d.phase, Retiring}
  {
    var d1 := d.(ingress := Receive(r.ingress, d.ingress).slot);
    assert FoldIngress(d1, r).driver.phase in {d.phase, Retiring};
  }

  lemma SelectPhase(d: DriverState, r: Round)
    ensures var p := Select(d, r);
      if p.events != [] && p.events[0].PublishCalled? then p.driver.phase in {Active, Retiring}
      else p.driver.phase in {d.phase, Retiring}
  {
    if d.active.Some? {
      if d.sourceIndex.Some? {
        OfferPhase(d, r);
      } else {
        match NextRow(d.settlements)
        case None => AcquirePhase(d, r);
        case Some(index) =>
          if d.settlements[index].Offer? {
            OfferPhase(Hold(d, index), r);
          } else {
            AcquirePhase(d.(settlements := Insert(Remove(d.settlements, index), index, Offer(d.settlements[index].settlement))), r);
          }
      }
    }
  }

  /** The order in which phases are passed. */
  function Rank(phase: Phase): nat {
    match phase
    case Prepared => 0
    case Activating => 1
    case Initializing => 2
    case SettlingInitialization => 3
    case Active => 4
    case Retiring => 5
    case RetirementAttempted => 6
  }

  lemma TurnPhase(d: DriverState, r: Round)
    requires Inv(d) && Running(d)
    ensures var p := Turn(d, r);
      && Rank(d.phase) <= Rank(p.driver.phase) && !p.driver.phase.RetirementAttempted?
      && (p.events != [] && p.events[0].PublishCalled? ==> p.driver.phase.Active? || Terminal(p.driver))
      && (p.driver.phase.Active? ==> d.phase.Active? || p.events == [PublishCalled(Published)])
  {
    if d.interpretation.Some? {
      ClassifyKeepsInv(d, r);
      if !Classify(d, r).driver.phase.Retiring? {
        ClassifyOffers(d, r);
        SelectPhase(Classify(d, r).driver, r);
      }
    } else {
      SelectPhase(d, r);
    }
  }

  /** Phases only advance, publication alone leads to activity, and a retirement call is the
      last thing before the final phase. */
  lemma StepPhase(d: DriverState, r: Round)
    requires Inv(d)
    ensures var p := Step(d, r);
      && !p.driver.phase.Prepared? && Rank(d.phase) <= Rank(p.driver.phase)
      && (Terminal(d) ==> Terminal(p.driver))
      && (d.phase.RetirementAttempted? || (p.events != [] && IsRetirement(p.events[0])) ==> p.driver.phase.RetirementAttempted?)
      && (d.phase.Active? ==> p.driver.phase.Active? || Terminal(p.driver))
      && (p.events != [] && p.events[0].PublishCalled? ==> p.driver.phase.Active? || Terminal(p.driver))
      && (p.driver.phase.Active? ==> d.phase.Active? || p.events == [PublishCalled(Published)])
  {
    StepShape(d, r);
    if Running(d) {
      TurnPhase(d, r);
    }
  }

  lemma StepSpendsBudgets(d: DriverState, r: Round)
    requires Inv(d)
    ensures var p := Step(d, r);
      && Count(p.events, isInitialization) + InitializationsLeft(p.driver) <= InitializationsLeft(d)
      && Count(p.events, isPublication) + PublicationsLeft(p.driver) <= PublicationsLeft(d)
      && Count(p.events, isRetirement) + RetirementsLeft(p.driver) <= RetirementsLeft(d)
  {
    StepShape(d, r);
    CountShort(Step(d, r).events, isInitialization);
    CountShort(Step(d, r).events, isPublication);
    CountShort(Step(d, r).events, isRetirement);
    StepPhase(d, r);
  }

  lemma {:induction false} RunSpendsBudgets(d: DriverState, rounds: seq<Round>)
    requires Inv(d)
    ensures var p := Run(d, rounds);
      && Count(p.events, isInitialization) + InitializationsLeft(p.driver) <= InitializationsLeft(d)
      && Count(p.events, isPublication) + PublicationsLeft(p.driver) <= PublicationsLeft(d)
      && Count(p.events, isRetirement) + RetirementsLeft(p.driver) <= RetirementsLeft(d)
    decreases |rounds|
  {
    if rounds != [] {
      var first := Step(d, rounds[0]);
      StepSpendsBudgets(d, rounds[0]);
      StepKeepsInv(d, rounds[0]);
      RunSpendsBudgets(first.driver, rounds[1..]);
      var rest := Run(first.driver, rounds[1..]);
      CountAppend(first.events, rest.events, isInitialization);
      CountAppend(first.events, rest.events, isPublication);
      CountAppend(first.events, rest.events, isRetirement);
    }
  }

  // --------------------------------------------------- nothing follows a cause

  ghost predicate OnlyRetirementFollowsACause(events: seq<Event>) {
    forall i, j :: 0 <= i < j < |events| && Causes(events[i]) != [] ==> IsRetirement(events[j])
  }

  ghost predicate OnlyRetirements(events: seq<Event>) {
    forall i :: 0 <= i < |events| ==> IsRetirement(events[i])
  }

  lemma {:induction false} CausedAt(events: seq<Event>, i: nat)
    requires i < |events| && Causes(events[i]) != []
    ensures AllCauses(events) != []
  {
    if i > 0 {
      CausedAt(events[1..], i - 1);
    }
  }

  lemma RequestEndsAtCause(d: DriverState, control: bool, r: Round)
    ensures var p := if control then AcquireControl(d, r) else AcquireOrdinary(d, r);
      |p.events| > 1 ==> p.events[0].EventRequested? && Causes(p.events[0]) == []
  {
    var got := Receive(r.ingress, d.ingress);
    assert got.failures == [] ==> Failures(HostPanics(got.failures)) == [];
  }

  lemma SelectEndsAtCause(d: DriverState, r: Round)
    requires d.active.Some? && (d.phase.SettlingInitialization? || d.phase.Active?)
    ensures OnlyRetirementFollowsACause(Select(d, r).events)
  {
    SelectShape(d, r);
    if d.sourceIndex.None? {
      match NextRow(d.settlements)
      case None => RequestEndsAtCause(d, false, r);
      case Some(index) =>
        RequestEndsAtCause(d.(settlements := Insert(Remove(d.settlements, index), index, Offer(d.settlements[index].settlement))), true, r);
    }
  }

  lemma ClassifyEndsAtCause(d: DriverState, r: Round)
    requires Inv(d) && Running(d) && d.interpretation.Some?
    ensures OnlyRetirementFollowsACause(Turn(d, r).events)
  {
    var classified := Classify(d, r);
    assert classified.driver.phase.Retiring? || Causes(classified.events[0]) == [];
    if !classified.driver.phase.Retiring? {
      ClassifyOffers(d, r);
    }
  }

  lemma StepEndsAtCause(d: DriverState, r: Round)
    requires Inv(d)
    ensures OnlyRetirementFollowsACause(Step(d, r).events)
    ensures Terminal(d) ==> OnlyRetirements(Step(d, r).events)
  {
    StepShape(d, r);
    if Running(d) {
      if d.interpretation.Some? {
        ClassifyEndsAtCause(d, r);
      } else {
        SelectEndsAtCause(d, r);
      }
    }
  }

  /** Once a cause is acquired, no fold, offer, acquisition or publication follows, over
      any sequence of receives and dropped loans. */
  lemma {:induction false} RunEndsAtCause(d: DriverState, rounds: seq<Round>)
    requires Inv(d)
    ensures OnlyRetirementFollowsACause(Run(d, rounds).events)
    ensures Terminal(d) ==> OnlyRetirements(Run(d, rounds).events)
    decreases |rounds|
  {
    if rounds != [] {
      var first := Step(d, rounds[0]);
      StepEndsAtCause(d, rounds[0]);
      StepKeepsInv(d, rounds[0]);
      StepLogs(d, rounds[0]);
      StepPhase(d, rounds[0]);
      RunEndsAtCause(first.driver, rounds[1..]);
      if i: nat :| i < |first.events| && Causes(first.events[i]) != [] {
        CausedAt(first.events, i);
        assert Log(first.driver) != [];
        assert Terminal(first.driver);
      }
    }
  }
}
