/** The causal order of calls with no assumption on the host or on the loans: every call is
    followed by what its reply calls for, and a dropped one by the call that resumes it. */
module DriverResumption {
  import opened Basics
  import opened Operations
  import opened DriverModel
  import opened DriverInvariant
  import opened DriverHistory
  import opened DriverTurns

  /** What the next receive of the Driver does after a loan was dropped inside `a`. Activation,
      an offer and an ordinary acquisition are repeated. A dropped control acquisition is
      followed by another offer, and a dropped `apply` by the classification of what it had
      acquired, or else by the next row, publication or event. */
  predicate Resumes(a: Event, b: Event)
    requires Suspended(a)
  {
    match a
    case ActivateCalled(_, _, _, _) => b.ActivateCalled?
    case OfferCalled(_, turn, _, _, _, _, _) => b.OfferCalled? && b.turn == turn
    case EventRequested(control, _) => if control then b.OfferCalled? else IsOrdinary(b)
    case ApplyCalled(_, _, applied) =>
      if applied.interpretation.Some? then b.StatusRead?
      else b.OfferCalled? || b.PublishCalled? || IsOrdinary(b)
    case _ => false
  }

  predicate Continues(a: Event, b: Event) {
    IsRetirement(b) || if Suspended(a) then Resumes(a, b) else MayFollow(a, b)
  }

  ghost predicate Continuous(events: seq<Event>) {
    forall i :: 0 <= i < |events| - 1 ==> Continues(events[i], events[i + 1])
  }

  /** What the state after a completed call makes ready. */
  ghost predicate Readies(e: Event, d: DriverState) {
    Terminal(d) ||
    match e
    case Initialized(_) => d.phase.Activating?
    case ActivateCalled(_, _, _, _) => Running(d) && d.interpretation.Some?
    case ApplyCalled(_, _, _) => Running(d) && d.interpretation.Some?
    case PublishCalled(_) => d.phase.Active? && d.interpretation.None? && AllRetained(d.settlements)
    case OfferCalled(_, _, _, _, _, _, _) =>
      Running(d) && d.interpretation.None? &&
      if Admits(e) then NextRow(d.settlements).Some? && d.settlements[NextRow(d.settlements).value].AwaitSource?
      else NoneAwaiting(d.settlements)
    case _ => false
  }

  /** What the state after the last event of a turn makes ready, a dropped one included. */
  ghost predicate Prepares(e: Event, d: DriverState) {
    Terminal(d) ||
    if !Suspended(e) then Readies(e, d) && (Running(d) ==> d.sourceIndex.None?)
    else match e
      case ActivateCalled(_, _, _, _) => d.phase.Activating?
      case OfferCalled(_, turn, _, _, _, _, _) =>
        Running(d) && d.interpretation.None? && d.sourceIndex.Some? && d.heldTurn == turn
      case EventRequested(control, _) =>
        && Running(d) && d.interpretation.None? && d.sourceIndex.None?
        && if control then NextRow(d.settlements).Some? && d.settlements[NextRow(d.settlements).value].Offer?
           else d.phase.Active? && AllRetained(d.settlements)
      case ApplyCalled(_, _, applied) =>
        && Running(d) && d.sourceIndex.None?
        && if applied.interpretation.Some? then d.interpretation.Some? else d.interpretation.None? && NoneAwaiting(d.settlements)
      case _ => false
  }

  lemma OfferPrepares(d: DriverState, r: Round)
    requires Inv(d) && Running(d) && !d.phase.Initializing? && d.interpretation.None? && d.sourceIndex.Some?
    ensures var p := OfferHeld(d, r); |p.events| == 1 && Prepares(p.events[0], p.driver)
  {
    var received := if d.sourceReceived.Some? then d.sourceReceived else r.offer.received;
    if received.Some? && received.value.SourceAdmitted? {
      var index := d.sourceIndex.value;
      NextAfter(d.settlements[..index], AwaitSource(Custody(received.value.settlement, d.heldTurn)), d.settlements[index..]);
    }
  }

  lemma FoldPrepares(d: DriverState, r: Round)
    requires Running(d) && d.active.Some? && d.sourceIndex.None? && NoneAwaiting(d.settlements)
    ensures var p := FoldIngress(d, r);
      p.driver.phase.Retiring? || (|p.events| == 2 && Prepares(p.events[1], p.driver))
  {
  }

  lemma OrdinaryPrepares(d: DriverState, r: Round)
    requires Inv(d) && d.phase.Active? && d.interpretation.None? && d.sourceIndex.None? && AllRetained(d.settlements)
    ensures var p := AcquireOrdinary(d, r); p.events != [] && Prepares(p.events[|p.events| - 1], p.driver)
  {
    AcquireShape(d, r);
    FoldPrepares(d.(ingress := Receive(r.ingress, d.ingress).slot), r);
  }

  lemma ControlPrepares(d: DriverState, r: Round)
    requires Inv(d) && Running(d) && !d.phase.Initializing? && d.interpretation.None? && d.sourceIndex.None?
    requires NoneAwaiting(d.settlements) && NextRow(d.settlements).Some?
    ensures var p := AcquireControl(d, r); p.events != [] && Prepares(p.events[|p.events| - 1], p.driver)
  {
    AcquireShape(d, r);
    FoldPrepares(d.(ingress := Receive(r.ingress, d.ingress).slot), r);
  }

  /** The queue in which the awaiting row has been turned back to an offer. */
  lemma BackToOffer(d: DriverState, index: nat) returns (d1: DriverState)
    requires Inv(d) && Running(d) && !d.phase.Initializing? && d.interpretation.None? && d.sourceIndex.None?
    requires NextRow(d.settlements) == Some(index) && d.settlements[index].AwaitSource?
    ensures d1 == d.(settlements := Insert(Remove(d.settlements, index), index, Offer(d.settlements[index].settlement)))
    ensures Inv(d1) && NoneAwaiting(d1.settlements) && NextRow(d1.settlements).Some?
  {
    var row := Offer(d.settlements[index].settlement);
    d1 := d.(settlements := Insert(Remove(d.settlements, index), index, row));
    RemoveKeepsOrder(d.settlements, index, d.received);
    InsertKeepsOrder(Remove(d.settlements, index), index, row, d.received);
    assert d1.settlements[index] == row;
  }

  lemma SelectPrepares(d: DriverState, r: Round)
    requires Inv(d) && Running(d) && !d.phase.Initializing? && d.interpretation.None?
    ensures var p := Select(d, r); p.events != [] && Prepares(p.events[|p.events| - 1], p.driver)
  {
    if d.sourceIndex.Some? {
      OfferPrepares(d, r);
    } else {
      match NextRow(d.settlements)
      case None =>
        if d.phase.Active? {
          OrdinaryPrepares(d, r);
        }
      case Some(index) =>
        RemoveKeepsOrder(d.settlements, index, d.received);
        if d.settlements[index].Offer? {
          OfferPrepares(Hold(d, index), r);
        } else {
          var d1 := BackToOffer(d, index);
          ControlPrepares(d1, r);
        }
    }
  }

  lemma TurnPrepares(d: DriverState, r: Round)
    requires Inv(d) && Running(d)
    ensures var p := Turn(d, r); p.events != [] && Prepares(p.events[|p.events| - 1], p.driver)
  {
    if d.interpretation.Some? {
      ClassifyKeepsInv(d, r);
      var d1 := Classify(d, r).driver;
      if !d1.phase.Retiring? {
        SelectPrepares(d1, r);
      }
    } else {
      SelectPrepares(d, r);
    }
  }

  lemma ActivationPrepares(d: DriverState, r: Round)
    requires Inv(d) && d.phase.Activating?
    ensures Prepares(ActivateCalled(d.environment, d.actions, d.activation, r.activate), Activate(d, r).driver)
  {
  }

  lemma StepPrepares(d: DriverState, r: Round)
    requires Inv(d) && Step(d, r).events != []
    ensures var p := Step(d, r); Prepares(p.events[|p.events| - 1], p.driver)
  {
    if Running(d) {
      TurnPrepares(d, r);
    } else {
      StepShape(d, r);
      StepPhase(d, r);
      match d.phase
      case Activating => ActivationPrepares(d, r);
      case _ =>
    }
  }

  lemma SelectContinues(e: Event, d: DriverState, r: Round)
    requires Inv(d) && Prepares(e, d) && Running(d) && !d.phase.Initializing? && d.interpretation.None?
    ensures Select(d, r).events != [] && Continues(e, Select(d, r).events[0])
  {
    SelectShape(d, r);
    if d.sourceIndex.None? {
      match NextRow(d.settlements)
      case None => AcquireShape(d, r);
      case Some(index) =>
        AcquireShape(d.(settlements := Insert(Remove(d.settlements, index), index, Offer(d.settlements[index].settlement))), r);
    }
  }

  lemma PreparedContinues(e: Event, d: DriverState, r: Round)
    requires Inv(d) && Prepares(e, d) && Step(d, r).events != []
    ensures Continues(e, Step(d, r).events[0])
  {
    StepShape(d, r);
    if Running(d) && d.interpretation.None? {
      SelectContinues(e, d, r);
    }
  }

  lemma SilentStaysPrepared(d: DriverState, r: Round)
    requires Inv(d) && Step(d, r).events == []
    ensures Terminal(d) && Terminal(Step(d, r).driver)
  {
    StepShape(d, r);
    StepPhase(d, r);
  }

  /** Within a turn only the last call can be a dropped one. */
  lemma StepContinuous(d: DriverState, r: Round)
    requires Inv(d)
    ensures Continuous(Step(d, r).events)
  {
    StepShape(d, r);
    StepGoesOn(d, r);
  }

  lemma RequestGoesOn(d: DriverState, r: Round)
    ensures var p := AcquireControl(d, r); |p.events| > 1 ==> !Suspended(p.events[0])
    ensures var p := AcquireOrdinary(d, r); |p.events| > 1 ==> !Suspended(p.events[0])
  {
  }

  lemma SelectGoesOn(d: DriverState, r: Round)
    requires d.active.Some? && (d.phase.SettlingInitialization? || d.phase.Active?)
    ensures |Select(d, r).events| > 1 ==> !Suspended(Select(d, r).events[0])
  {
    SelectShape(d, r);
    if d.sourceIndex.None? {
      match NextRow(d.settlements)
      case None => RequestGoesOn(d, r);
      case Some(index) =>
        RequestGoesOn(d.(settlements := Insert(Remove(d.settlements, index), index, Offer(d.settlements[index].settlement))), r);
    }
  }

  lemma StepGoesOn(d: DriverState, r: Round)
    requires Inv(d)
    ensures |Step(d, r).events| > 1 ==> !Suspended(Step(d, r).events[0])
  {
    StepShape(d, r);
    if Running(d) && d.interpretation.None? {
      SelectGoesOn(d, r);
    }
  }

  lemma NextTurn(d: DriverState, r: Round) returns (next: DriverState, events: seq<Event>)
    requires Inv(d)
    ensures Progress(next, events) == Step(d, r) && Inv(next) && Continuous(events)
    ensures events != [] ==> Prepares(events[|events| - 1], next)
    ensures events != [] ==> forall e :: Prepares(e, d) ==> Continues(e, events[0])
    ensures events == [] ==> forall e :: Prepares(e, d) ==> Prepares(e, next)
  {
    StepContinuous(d, r);
    StepKeepsInv(d, r);
    next, events := Step(d, r).driver, Step(d, r).events;
    if events != [] {
      StepPrepares(d, r);
      forall e | Prepares(e, d) ensures Continues(e, events[0]) {
        PreparedContinues(e, d, r);
      }
    } else {
      SilentStaysPrepared(d, r);
    }
  }

  /** Any run of any Behavior against any host, with loans dropped anywhere: each call is
      followed by what it calls for, or by its resumption. */
  lemma {:induction false} RunIsContinuous(d: DriverState, rounds: seq<Round>)
    requires Inv(d)
    ensures Continuous(Run(d, rounds).events)
    ensures forall e :: Prepares(e, d) && Run(d, rounds).events != [] ==> Continues(e, Run(d, rounds).events[0])
    decreases |rounds|
  {
    if rounds != [] {
      var next, events := NextTurn(d, rounds[0]);
      RunIsContinuous(next, rounds[1..]);
    }
  }

  // -------------------------------------------------------------- no loan dropped

  ghost predicate NoneSuspended(events: seq<Event>) {
    forall i :: 0 <= i < |events| ==> !Suspended(events[i])
  }

  lemma FoldIsNotSuspended(d: DriverState, r: Round)
    requires Uninterrupted(r)
    ensures NoneSuspended(FoldIngress(d, r).events)
  {
  }

  lemma AcquireIsNotSuspended(d: DriverState, r: Round)
    requires Uninterrupted(r) && d.ingress.None?
    ensures NoneSuspended(AcquireControl(d, r).events) && NoneSuspended(AcquireOrdinary(d, r).events)
  {
    FoldIsNotSuspended(d.(ingress := Receive(r.ingress, None).slot), r);
  }

  lemma SelectIsNotSuspended(d: DriverState, r: Round)
    requires Inv(d) && Running(d) && Uninterrupted(r)
    ensures NoneSuspended(Select(d, r).events)
  {
    if d.sourceIndex.None? {
      match NextRow(d.settlements)
      case None => AcquireIsNotSuspended(d, r);
      case Some(index) =>
        AcquireIsNotSuspended(d.(settlements := Insert(Remove(d.settlements, index), index, Offer(d.settlements[index].settlement))), r);
    }
  }

  lemma StepIsNotSuspended(d: DriverState, r: Round)
    requires Inv(d) && Uninterrupted(r)
    ensures NoneSuspended(Step(d, r).events)
  {
    if Running(d) {
      if d.interpretation.Some? {
        ClassifyKeepsInv(d, r);
        if !Classify(d, r).driver.phase.Retiring? {
          SelectIsNotSuspended(Classify(d, r).driver, r);
        }
      } else {
        SelectIsNotSuspended(d, r);
      }
    }
  }

  lemma {:induction false} RunIsNotSuspended(d: DriverState, rounds: seq<Round>)
    requires Inv(d) && AllUninterrupted(rounds)
    ensures NoneSuspended(Run(d, rounds).events)
    decreases |rounds|
  {
    if rounds != [] {
      StepIsNotSuspended(d, rounds[0]);
      StepKeepsInv(d, rounds[0]);
      RunIsNotSuspended(Step(d, rounds[0]).driver, rounds[1..]);
    }
  }

  /** An uninterrupted run makes its calls in causal order, whatever the host does. */
  lemma RunIsCausallyOrdered(d: DriverState, rounds: seq<Round>)
    requires Inv(d) && AllUninterrupted(rounds)
    ensures CausallyOrdered(Run(d, rounds).events)
  {
    RunIsContinuous(d, rounds);
    RunIsNotSuspended(d, rounds);
  }
}
