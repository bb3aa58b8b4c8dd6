/** What `receive_run` returns, when it is the complete retirement, and which owner each
    primary cause retires. */
module DriverRetirement {
  import opened Basics
  import opened Operations
  import opened DriverModel
  import opened DriverInvariant
  import opened DriverCauses
  import opened DriverHistory
  import opened DriverTurns

  datatype Retirement = Retirement(
    behavior: Token, residual: Token, disposition: Cause, additionalFailures: seq<DriverError>)

  /** Every owning slot permits the move into a complete retirement. */
  predicate Vacated(d: DriverState) {
    && d.environment.None? && d.active.None? && d.actions.None? && d.activation.None? && d.interpretation.None?
    && d.sourceInput.None? && d.sourceReceived.None? && d.sourceIndex.None? && d.settlements == []
    && d.ingress.None? && d.retirementInput.None? && d.residual.Some? && d.disposition.Some?
  }

  function Reply(d: DriverState): Retirement
    requires Vacated(d)
  {
    Retirement(d.behavior, d.residual.value, d.disposition.value, d.additionalFailures)
  }

  // ---------------------------------------------------------- complete barrier

  predicate Clean<T>(operation: Operation<T>) {
    operation.Constructed? && operation.end.Ready? && operation.disposal.None?
  }

  /** A host that empties its inputs exactly when it replies and does not panic inside an
      operation. The Behavior, the classifier, publication and disposal stay arbitrary. */
  predicate Conserving(r: Round) {
    && Clean(r.activate.run) && r.activate.environment.None? && r.activate.actions.None? && r.activate.activation.Some?
    && Clean(r.offer.run) && r.offer.input.None? && r.offer.received.Some?
    && Clean(r.ingress)
    && Clean(r.apply.run) && r.apply.actions.None? && r.apply.interpretation.Some?
    && Clean(r.retirePrepared.run) && r.retirePrepared.environment.None? && r.retirePrepared.actions.None?
    && r.retirePrepared.residual.Some?
    && Clean(r.retireActive.run) && r.retireActive.active.None? && r.retireActive.actions.None?
    && r.retireActive.interpretation.None? && r.retireActive.source.None? && r.retireActive.index.None?
    && r.retireActive.ingress.None? && r.retireActive.settlements.None? && r.retireActive.residual.Some?
  }

  ghost predicate AllConserving(rounds: seq<Round>) {
    forall i :: 0 <= i < |rounds| ==> Conserving(rounds[i])
  }

  /** Nothing is stranded in a slot that retirement does not lend. */
  ghost predicate Tidy(d: DriverState) {
    && Calm(d)
    && (d.phase.Activating? ==> d.activation.None? && d.environment.Some?)
    && (d.phase.Retiring? ==>
          d.activation.None? && d.sourceIndex.None? && (d.active.None? ==> HoldsPrepared(d) || HoldsRefusal(d)))
    && (d.phase.RetirementAttempted? ==> Vacated(d))
  }

  lemma OfferStaysTidy(d: DriverState, r: Round)
    requires Inv(d) && Running(d) && Conserving(r) && d.sourceIndex.Some? && d.sourceReceived.None?
    ensures OfferHeld(d, r).driver.sourceIndex.None? && OfferHeld(d, r).driver.activation.None?
    ensures OfferHeld(d, r).driver.active.Some?
  {
  }

  lemma RequestStaysTidy(d: DriverState, r: Round)
    requires Conserving(r) && d.active.Some? && d.activation.None? && d.sourceIndex.None?
    ensures var e := AcquireControl(d, r).driver; e.activation.None? && e.sourceIndex.None? && e.active.Some?
    ensures var e := AcquireOrdinary(d, r).driver; e.activation.None? && e.sourceIndex.None? && e.active.Some?
  {
    var d1 := d.(ingress := Receive(r.ingress, d.ingress).slot);
    assert var e := FoldIngress(d1, r).driver; e.activation.None? && e.sourceIndex.None? && e.active.Some?;
  }

  lemma SelectStaysTidy(d: DriverState, r: Round)
    requires Inv(d) && Calm(d) && Running(d) && !d.phase.Initializing? && d.interpretation.None? && Conserving(r)
    ensures var e := Select(d, r).driver; e.activation.None? && e.sourceIndex.None? && e.active.Some?
  {
    match NextRow(d.settlements)
    case None => RequestStaysTidy(d, r);
    case Some(index) =>
      RemoveKeepsOrder(d.settlements, index, d.received);
      if d.settlements[index].Offer? {
        OfferStaysTidy(Hold(d, index), r);
      } else {
        RequestStaysTidy(d.(settlements := Insert(Remove(d.settlements, index), index, Offer(d.settlements[index].settlement))), r);
      }
  }

  lemma TurnStaysTidy(d: DriverState, r: Round)
    requires Inv(d) && Tidy(d) && Running(d) && Conserving(r)
    ensures Tidy(Turn(d, r).driver)
  {
    StepStaysCalm(d, r);
    StepPhase(d, r);
    StepShape(d, r);
    if d.interpretation.Some? {
      ClassifyKeepsInv(d, r);
      if !Classify(d, r).driver.phase.Retiring? {
        SelectStaysTidy(Classify(d, r).driver, r);
      }
    } else {
      SelectStaysTidy(d, r);
    }
    SelectNeverRetires(d, r);
  }

  lemma SelectNeverRetires(d: DriverState, r: Round)
    requires Inv(d) && Running(d)
    ensures !Turn(d, r).driver.phase.RetirementAttempted? && !Turn(d, r).driver.phase.Activating?
  {
    if d.interpretation.Some? {
      ClassifyKeepsInv(d, r);
      SelectPhase(Classify(d, r).driver, r);
    } else {
      SelectPhase(d, r);
    }
  }

  lemma StepStaysTidy(d: DriverState, r: Round)
    requires Inv(d) && Tidy(d) && Conserving(r)
    ensures Tidy(Step(d, r).driver)
    ensures d.phase.Retiring? ==> Vacated(Step(d, r).driver)
  {
    if Running(d) {
      TurnStaysTidy(d, r);
    } else if d.phase.Activating? {
      ActivateStaysTidy(d, r);
    }
  }

  lemma ActivateStaysTidy(d: DriverState, r: Round)
    requires Inv(d) && Tidy(d) && Conserving(r) && d.phase.Activating?
    ensures Tidy(Activate(d, r).driver)
  {
  }

  lemma {:induction false} RunStaysTidy(d: DriverState, rounds: seq<Round>)
    requires Inv(d) && Tidy(d) && AllConserving(rounds)
    ensures Tidy(Run(d, rounds).driver) && Inv(Run(d, rounds).driver)
    decreases |rounds|
  {
    if rounds != [] {
      StepStaysTidy(d, rounds[0]);
      StepKeepsInv(d, rounds[0]);
      RunStaysTidy(Step(d, rounds[0]).driver, rounds[1..]);
    }
  }

  /** Under a conserving host the turn in which the loop returns leaves a complete
      retirement, whose cause is the first one acquired. */
  lemma BarrierIsComplete(behavior: Token, environment: Token, rounds: seq<Round>, last: Round)
    requires AllConserving(rounds) && Conserving(last)
    requires Run(New(behavior, environment), rounds).driver.phase.Retiring?
    ensures var d := Step(Run(New(behavior, environment), rounds).driver, last).driver;
      && Vacated(d)
      && AllCauses(Run(New(behavior, environment), rounds).events) != []
      && Reply(d).disposition == AllCauses(Run(New(behavior, environment), rounds).events)[0]
      && Reply(d).behavior == behavior
  {
    var start := New(behavior, environment);
    var d := Run(start, rounds).driver;
    RunStaysTidy(start, rounds);
    StepStaysTidy(d, last);
    RunLogsEveryCause(start, rounds);
    StepLogs(d, last);
    RunKeepsBehavior(start, rounds);
    StepKeepsBehavior(d, last);
    assert Log(start) == [];
    assert Log(d) == AllCauses(Run(start, rounds).events);
    assert Log(d)[0] == d.disposition.value;
  }

  lemma OfferKeepsBehavior(d: DriverState, r: Round)
    requires d.sourceIndex.Some?
    ensures OfferHeld(d, r).driver.behavior == d.behavior
  {
  }

  lemma AcquireKeepsBehavior(d: DriverState, r: Round)
    ensures AcquireControl(d, r).driver.behavior == d.behavior && AcquireOrdinary(d, r).driver.behavior == d.behavior
  {
    assert forall e: DriverState :: FoldIngress(e, r).driver.behavior == e.behavior;
  }

  lemma SelectKeepsBehavior(d: DriverState, r: Round)
    ensures Select(d, r).driver.behavior == d.behavior
  {
    if d.sourceIndex.Some? {
      OfferKeepsBehavior(d, r);
    } else {
      match NextRow(d.settlements)
      case None => AcquireKeepsBehavior(d, r);
      case Some(index) =>
        OfferKeepsBehavior(Hold(d, index), r);
        AcquireKeepsBehavior(d.(settlements := Insert(Remove(d.settlements, index), index, Offer(d.settlements[index].settlement))), r);
    }
  }

  lemma TurnKeepsBehavior(d: DriverState, r: Round)
    ensures Turn(d, r).driver.behavior == d.behavior
  {
    if d.interpretation.None? {
      SelectKeepsBehavior(d, r);
    } else {
      SelectKeepsBehavior(Classify(d, r).driver, r);
    }
  }

  lemma StepKeepsBehavior(d: DriverState, r: Round)
    ensures Step(d, r).driver.behavior == d.behavior
  {
    match d.phase
    case Prepared => assert Initialize(d, r).driver.behavior == d.behavior;
    case Activating => assert Activate(d, r).driver.behavior == d.behavior;
    case Retiring => assert Retire(d, r).driver.behavior == d.behavior;
    case RetirementAttempted =>
    case _ => TurnKeepsBehavior(d, r);
  }

  lemma {:induction false} RunKeepsBehavior(d: DriverState, rounds: seq<Round>)
    ensures Run(d, rounds).driver.behavior == d.behavior
    decreases |rounds|
  {
    if rounds != [] {
      StepKeepsBehavior(d, rounds[0]);
      RunKeepsBehavior(Step(d, rounds[0]).driver, rounds[1..]);
    }
  }

  // -------------------------------------------------------------- owner retired

  /** A host that leaves both its input and its reply: nothing can be put back, so nothing
      is retired. */
  predicate Stranded(d: DriverState) {
    d.sourceInput.Some? && d.sourceReceived.Some?
  }

  predicate CallsActive(d: DriverState, events: seq<Event>) {
    |events| == 1 && events[0].ActiveRetireCalled? && d.active.Some? && events[0].active == d.active
  }

  predicate CallsPrepared(d: DriverState, events: seq<Event>) {
    |events| == 1 && events[0].PreparedRetireCalled? && d.environment.Some? && events[0].environment == d.environment
  }

  /** Exact: with an active owner the retirement turn calls it unless a row is stranded. */
  lemma ActiveRetiresIff(d: DriverState, r: Round)
    requires Inv(d) && d.phase.Retiring? && HoldsActive(d)
    ensures if Stranded(d) then Step(d, r) == Progress(d, []) else CallsActive(d, Step(d, r).events)
  {
  }

  lemma FoldKeepsHeld(d: DriverState, r: Round)
    ensures FoldIngress(d, r).driver.sourceInput == d.sourceInput
  {
  }

  lemma ControlKeepsHeld(d: DriverState, r: Round)
    ensures AcquireControl(d, r).driver.sourceInput == d.sourceInput
  {
    FoldKeepsHeld(d.(ingress := Receive(r.ingress, d.ingress).slot), r);
  }

  lemma OrdinaryKeepsHeld(d: DriverState, r: Round)
    ensures AcquireOrdinary(d, r).driver.sourceInput == d.sourceInput
  {
    FoldKeepsHeld(d.(ingress := Receive(r.ingress, d.ingress).slot), r);
  }

  lemma OfferStrandsIff(d: DriverState, r: Round)
    requires Inv(d) && Running(d) && d.interpretation.None? && d.sourceIndex.Some?
    ensures var p := OfferHeld(d, r);
      |p.events| == 1 && (p.driver.phase.Retiring? ==> (Stranded(p.driver) <==> StrandsRow(p.events[0])))
  {
  }

  lemma SelectStrandsIff(d: DriverState, r: Round)
    requires Inv(d) && Running(d) && !d.phase.Initializing? && d.interpretation.None?
    ensures var e := Select(d, r).driver; var events := Select(d, r).events;
      events != [] && (e.phase.Retiring? ==> (Stranded(e) <==> StrandsRow(events[|events| - 1])))
  {
    SelectShape(d, r);
    if d.sourceIndex.Some? {
      OfferStrandsIff(d, r);
    } else {
      match NextRow(d.settlements)
      case None => OrdinaryKeepsHeld(d, r);
      case Some(index) => RowStrandsIff(d, index, r);
    }
  }

  lemma RowStrandsIff(d: DriverState, index: nat, r: Round)
    requires Inv(d) && Running(d) && d.interpretation.None? && d.sourceIndex.None? && NextRow(d.settlements) == Some(index)
    ensures var e := SelectRow(d, index, r).driver; var events := SelectRow(d, index, r).events;
      events != [] && (e.phase.Retiring? ==> (Stranded(e) <==> StrandsRow(events[|events| - 1])))
  {
    if d.settlements[index].Offer? {
      RemoveKeepsOrder(d.settlements, index, d.received);
      OfferStrandsIff(Hold(d, index), r);
    } else {
      var d1 := d.(settlements := Insert(Remove(d.settlements, index), index, Offer(d.settlements[index].settlement)));
      ControlKeepsHeld(d1, r);
      AcquireShape(d1, r);
    }
  }

  /** An offer after which the host has both left its input and given a reply. */
  predicate StrandsRow(e: Event) {
    e.OfferCalled? && e.left.Some? && e.custody.Some?
  }

  /** Exact: the turn that ends the run strands a row if and only if its last call is an
      offer that left its input beside a reply. */
  lemma StrandsIff(d: DriverState, r: Round)
    requires Inv(d) && Running(d) && Step(d, r).driver.phase.Retiring?
    ensures var events := Step(d, r).events;
      events != [] && (Stranded(Step(d, r).driver) <==> StrandsRow(events[|events| - 1]))
  {
    if d.interpretation.Some? {
      ClassifyKeepsInv(d, r);
      if !Classify(d, r).driver.phase.Retiring? {
        SelectStrandsIff(Classify(d, r).driver, r);
      }
    } else {
      SelectStrandsIff(d, r);
    }
  }

  /** The primary cause fixes what the retirement turn calls. Completions, transition panics
      and settlement failures always retire the active owner, an initialization panic always
      the prepared one without actions, an error of the Behavior whichever of the two there
      is, a refused activation nothing. After a host panic or a contract failure the active
      owner is retired unless a row is stranded, and what a failed activation left of the
      prepared owner is retired. */
  lemma PrimaryFixesOwner(d: DriverState, r: Round)
    requires Inv(d) && d.phase.Retiring?
    ensures var events := Step(d, r).events;
      match d.disposition.value
      case Completed(_) => CallsActive(d, events)
      case Failed(TransitionPanicked(_)) => CallsActive(d, events)
      case Failed(Settlement(_)) => CallsActive(d, events)
      case Failed(HostExecutionPanicked(_)) => if Stranded(d) then events == [] else CallsActive(d, events)
      case Failed(InitializationPanicked(_)) => CallsPrepared(d, events) && events[0].actions.None?
      case Failed(Behavior(_)) =>
        if d.active.Some? then CallsActive(d, events) else CallsPrepared(d, events) && events[0].actions.None?
      case Failed(Activation(_)) => events == []
      case Failed(_) =>
        if d.active.Some? && !Stranded(d) then CallsActive(d, events)
        else if d.active.None? && d.environment.Some? then CallsPrepared(d, events)
        else events == []
  {
  }

  lemma OfferKeepsOwner(d: DriverState, r: Round)
    requires d.sourceIndex.Some?
    ensures OfferHeld(d, r).driver.active == d.active && OfferHeld(d, r).driver.residual == d.residual
  {
  }

  lemma FoldKeepsOwner(d: DriverState, r: Round)
    ensures FoldIngress(d, r).driver.active == d.active && FoldIngress(d, r).driver.residual == d.residual
  {
  }

  lemma AcquireKeepsOwner(d: DriverState, r: Round)
    ensures AcquireControl(d, r).driver.active == d.active && AcquireControl(d, r).driver.residual == d.residual
    ensures AcquireOrdinary(d, r).driver.active == d.active && AcquireOrdinary(d, r).driver.residual == d.residual
  {
    var d1 := d.(ingress := Receive(r.ingress, d.ingress).slot);
    FoldKeepsOwner(d1, r);
  }

  lemma SelectKeepsOwner(d: DriverState, r: Round)
    ensures Select(d, r).driver.active == d.active && Select(d, r).driver.residual == d.residual
  {
    if d.sourceIndex.Some? {
      OfferKeepsOwner(d, r);
    } else {
      match NextRow(d.settlements)
      case None => AcquireKeepsOwner(d, r);
      case Some(index) =>
        OfferKeepsOwner(Hold(d, index), r);
        AcquireKeepsOwner(d.(settlements := Insert(Remove(d.settlements, index), index, Offer(d.settlements[index].settlement))), r);
    }
  }

  lemma TurnKeepsOwner(d: DriverState, r: Round)
    ensures Turn(d, r).driver.active == d.active && Turn(d, r).driver.residual == d.residual
  {
    if d.interpretation.None? {
      SelectKeepsOwner(d, r);
    } else {
      assert Classify(d, r).driver.active == d.active && Classify(d, r).driver.residual == d.residual;
      SelectKeepsOwner(Classify(d, r).driver, r);
    }
  }

  /** An initialization that errs or panics is followed by the retirement of the prepared
      environment, without actions, whatever the host answers. */
  lemma FailedInitializationRetiresPrepared(behavior: Token, environment: Token, r: Round, next: Round)
    requires !r.fold.Decided?
    ensures Step(New(behavior, environment), r).events == [Initialized(r.fold)]
    ensures Step(Step(New(behavior, environment), r).driver, next).events
         == [PreparedRetireCalled(Some(environment), None, next.retirePrepared)]
  {
  }

  /** The last event of a list of at most three is a failed fold. */
  predicate EndsInFailedFold(events: seq<Event>) {
    |events| == 2 && events[0].EventRequested? && events[1].Folded? && !events[1].reply.Decided?
  }

  lemma FailedFoldIsPrimary(d: DriverState, r: Round)
    requires Inv(d) && Running(d) && EndsInFailedFold(Step(d, r).events)
    ensures var e := Step(d, r).driver;
      && e.phase.Retiring? && e.active == d.active
      && e.disposition == Some(FoldCauses(Step(d, r).events[1].reply, false)[0])
  {
    StepLogs(d, r);
    StepShape(d, r);
    StepPhase(d, r);
    TurnKeepsOwner(d, r);
    var events := Step(d, r).events;
    StepEndsAtCause(d, r);
    assert events == [events[0]] + [events[1]];
    AllCausesAppend([events[0]], [events[1]]);
    AllCausesOne(events[0]);
    AllCausesOne(events[1]);
  }

  /** An event whose fold errs or panics is followed by the retirement of the active owner. */
  lemma FailedFoldRetiresActive(d: DriverState, r: Round, next: Round)
    requires Inv(d) && Running(d) && EndsInFailedFold(Step(d, r).events)
    ensures var e := Step(d, r).driver; CallsActive(d, Step(e, next).events) && e.active == d.active
  {
    FailedFoldIsPrimary(d, r);
    StepKeepsInv(d, r);
    PrimaryFixesOwner(Step(d, r).driver, next);
  }

  /** The lent settlements are the whole queue, the held row back in its place, newest first. */
  lemma RetirementKeepsOrder(d: DriverState, r: Round)
    requires Inv(d) && d.phase.Retiring? && Step(d, r).events != [] && Step(d, r).events[0].ActiveRetireCalled?
    ensures var e := Step(d, r).events[0];
      && e.settlements.Some?
      && (forall i, j :: 0 <= i < j < |e.settlements.value| ==> e.settlements.value[i].turn > e.settlements.value[j].turn)
      && e.settlements.value == if d.sourceInput.Some?
           then Insert(Custodies(d.settlements), d.sourceIndex.value, d.sourceInput.value)
           else Custodies(d.settlements)
  {
    if d.sourceInput.Some? {
      InsertKeepsOrder(d.settlements, d.sourceIndex.value, Retained(d.sourceInput.value), d.received);
      CustodiesInsert(d.settlements, d.sourceIndex.value, d.sourceInput.value);
    }
  }

  lemma CustodiesInsert(rows: seq<SettlementTurn>, index: nat, row: Custody)
    ensures Custodies(Insert(rows, index, Retained(row))) == Insert(Custodies(rows), index, row)
  {
  }
}
