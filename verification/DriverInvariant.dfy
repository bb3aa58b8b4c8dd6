/** What every turn keeps, for any Behavior and any host, dropped loans included. */
module DriverInvariant {
  import opened Basics
  import opened Operations
  import opened DriverModel

  predicate Running(d: DriverState) {
    d.phase.Initializing? || d.phase.SettlingInitialization? || d.phase.Active?
  }

  predicate Terminal(d: DriverState) {
    d.phase.Retiring? || d.phase.RetirementAttempted?
  }

  /** Strictly newest first. */
  ghost predicate NewestFirst(rows: seq<SettlementTurn>) {
    forall i, j :: 0 <= i < j < |rows| ==> rows[i].settlement.turn > rows[j].settlement.turn
  }

  ghost predicate AllRetained(rows: seq<SettlementTurn>) {
    forall i :: 0 <= i < |rows| ==> rows[i].Retained?
  }

  ghost predicate NoneAwaiting(rows: seq<SettlementTurn>) {
    forall i :: 0 <= i < |rows| ==> !rows[i].AwaitSource?
  }

  /** An awaiting row is the first row that is not retained, so there is at most one. */
  ghost predicate AwaitingIsFirst(rows: seq<SettlementTurn>) {
    forall i, j :: 0 <= i < j < |rows| && rows[j].AwaitSource? ==> rows[i].Retained?
  }

  ghost predicate ReceivedBefore(rows: seq<SettlementTurn>, bound: nat) {
    forall i :: 0 <= i < |rows| ==> rows[i].settlement.turn < bound
  }

  /** A row with stamp `turn` fits at `index`: newer rows before it, all retained, and
      older rows from there on. */
  ghost predicate FitsAt(rows: seq<SettlementTurn>, index: nat, turn: nat) {
    && index <= |rows|
    && (forall i :: 0 <= i < index ==> rows[i].Retained? && rows[i].settlement.turn > turn)
    && (forall i :: index <= i < |rows| ==> rows[i].settlement.turn < turn)
  }

  ghost predicate Ordered(d: DriverState) {
    && NewestFirst(d.settlements)
    && ReceivedBefore(d.settlements, d.received)
    && AwaitingIsFirst(d.settlements)
    && (d.interpretation.Some? && Running(d) ==> NoneAwaiting(d.settlements) && d.sourceIndex.None?)
    && (d.sourceIndex.None? ==> d.sourceInput.None? && d.sourceReceived.None?)
    && (d.sourceIndex.Some? ==>
          && d.heldTurn < d.received
          && FitsAt(d.settlements, d.sourceIndex.value, d.heldTurn)
          && NoneAwaiting(d.settlements)
          && (d.sourceInput.Some? ==> d.sourceInput.value.turn == d.heldTurn))
  }

  /** Nothing has been acquired from a running host. */
  ghost predicate NothingActive(d: DriverState) {
    && d.active.None? && d.interpretation.None? && d.ingress.None?
    && d.sourceInput.None? && d.sourceReceived.None? && d.sourceIndex.None?
    && d.settlements == [] && d.retirementInput.None?
  }

  /** The owner that an undischarged cause leaves for retirement. */
  ghost predicate OwnerOf(cause: Cause, d: DriverState) {
    match cause
    case Completed(_) => HoldsSettled(d)
    case Failed(TransitionPanicked(_)) => HoldsSettled(d)
    case Failed(HostExecutionPanicked(_)) => HoldsActive(d)
    case Failed(Settlement(_)) => HoldsSettled(d)
    case Failed(InitializationPanicked(_)) => HoldsPrepared(d)
    case Failed(Behavior(_)) => HoldsSettled(d) || HoldsPrepared(d)
    case Failed(Activation(_)) => HoldsRefusal(d)
    case Failed(ActivationPanicked(_)) => HoldsSettled(d) || HoldsRejectedActivation(d)
    case Failed(InterpreterContractFailed) => HoldsActive(d) || HoldsRejectedActivation(d)
    case Failed(RetirementPanicked(_)) => false
  }

  ghost predicate HoldsActive(d: DriverState) {
    d.active.Some? && d.environment.None? && d.activation.None? && d.residual.None?
  }

  /** An active owner with no row held out of the queue. */
  ghost predicate HoldsSettled(d: DriverState) {
    HoldsActive(d) && d.sourceIndex.None?
  }

  ghost predicate HoldsPrepared(d: DriverState) {
    NothingActive(d) && d.environment.Some? && d.actions.None? && d.activation.None? && d.residual.None?
  }

  ghost predicate HoldsRefusal(d: DriverState) {
    NothingActive(d) && d.environment.None? && d.actions.None? && d.activation.None? && d.residual.Some?
  }

  /** An activation that broke its contract; whatever it left is still in the slots. */
  ghost predicate HoldsRejectedActivation(d: DriverState) {
    NothingActive(d) && d.residual.None?
  }

  ghost predicate Inv(d: DriverState) {
    && (d.disposition.Some? <==> Terminal(d))
    && (d.disposition.None? ==> d.additionalFailures == [])
    && (d.disposition.Some? ==> d.disposition.value.Completed? || !d.disposition.value.failure.RetirementPanicked?)
    && (!d.phase.RetirementAttempted? ==> Ordered(d))
    && match d.phase
       case Prepared =>
         NothingActive(d) && d.environment.Some? && d.actions.None? && d.activation.None? && d.residual.None? && d.decision.None?
       case Activating => NothingActive(d) && d.residual.None? && d.decision.Some?
       case Initializing => InvRunning(d) && d.interpretation.Some? && d.actions.None? && d.settlements == []
       case SettlingInitialization => InvRunning(d)
       case Active => InvRunning(d)
       case Retiring => d.retirementInput.None? && OwnerOf(d.disposition.value, d)
       case RetirementAttempted => d.sourceInput.None? && d.settlements == []
  }

  ghost predicate InvRunning(d: DriverState) {
    && HoldsActive(d) && d.retirementInput.None? && d.ingress.None?
    && (d.interpretation.Some? ==> d.decision.Some?)
  }

  // ------------------------------------------------------------ preservation

  lemma InsertKeepsOrder(rows: seq<SettlementTurn>, index: nat, row: SettlementTurn, bound: nat)
    requires NewestFirst(rows) && ReceivedBefore(rows, bound) && NoneAwaiting(rows)
    requires FitsAt(rows, index, row.settlement.turn) && row.settlement.turn < bound
    ensures NewestFirst(Insert(rows, index, row)) && ReceivedBefore(Insert(rows, index, row), bound)
    ensures AwaitingIsFirst(Insert(rows, index, row))
  {
  }

  lemma RemoveKeepsOrder(rows: seq<SettlementTurn>, index: nat, bound: nat)
    requires NewestFirst(rows) && ReceivedBefore(rows, bound) && AwaitingIsFirst(rows)
    requires NextRow(rows) == Some(index)
    ensures NewestFirst(Remove(rows, index)) && ReceivedBefore(Remove(rows, index), bound)
    ensures FitsAt(Remove(rows, index), index, rows[index].settlement.turn)
    ensures NoneAwaiting(Remove(rows, index))
  {
    var rest := Remove(rows, index);
    forall i | 0 <= i < |rest| ensures rest[i] == rows[if i < index then i else i + 1] {
    }
  }

  lemma RejectAllKeepsInv(d: DriverState, errors: seq<DriverError>)
    requires Inv(d) && (Running(d) || d.phase.Retiring?) && HoldsActive(d)
    requires errors != [] && (errors[0].HostExecutionPanicked? || errors[0].InterpreterContractFailed? || (errors[0].Settlement? && d.sourceIndex.None?))
    ensures Inv(RejectAll(d, errors))
  {
  }

  lemma ResolveOfferKeepsInv(d: DriverState, failures: seq<Token>, disposal: Option<Token>)
    requires Inv(d) && Running(d) && d.interpretation.None? && d.sourceIndex.Some?
    requires d.sourceInput.None? && d.sourceReceived.Some?
    ensures Inv(ResolveOffer(d, failures, disposal))
  {
    var row := Custody(d.sourceReceived.value.settlement, d.heldTurn);
    var turn := match d.sourceReceived.value
      case SourceExhausted(_) => Retained(row)
      case SourceRetained(_) => Retained(row)
      case SourceAdmitted(_) => AwaitSource(row)
      case SourceClosing(_) => Offer(row);
    InsertKeepsOrder(d.settlements, d.sourceIndex.value, turn, d.received);
    var d1 := d.(sourceIndex := None, sourceReceived := None);
    var d2 := if d.sourceReceived.value.SourceExhausted? then d1
              else d1.(settlements := Insert(d1.settlements, d.sourceIndex.value, turn));
    assert Inv(d2);
    if d.sourceReceived.value.SourceClosing? {
      RejectAllKeepsInv(d2, [Settlement(SourceClosed)]);
    }
    if failures != [] {
      RejectAllKeepsInv(if d.sourceReceived.value.SourceClosing? then Reject(d2, Settlement(SourceClosed)) else d2,
                        HostPanics(failures));
    }
  }

  lemma OfferHeldKeepsInv(d: DriverState, r: Round)
    requires Inv(d) && Running(d) && d.interpretation.None? && d.sourceIndex.Some?
    ensures Inv(OfferHeld(d, r).driver)
  {
    var ran := if d.sourceReceived.None? then Receive(r.offer.run, None) else Receipt(None, [], false);
    var d1 := if d.sourceReceived.Some? then d else
      d.(sourceInput := if r.offer.input.Some? then Some(Custody(r.offer.input.value, d.heldTurn)) else None,
         sourceReceived := r.offer.received);
    assert Inv(d1);
    if d1.sourceInput.Some? || d1.sourceReceived.None? {
      if ran.failures != [] {
        RejectAllKeepsInv(d1, HostPanics(ran.failures));
      }
    } else {
      ResolveOfferKeepsInv(d1, ran.failures, r.disposal);
    }
  }

  lemma ApplyKeepsInv(d: DriverState, r: Round)
    requires Inv(d) && Running(d) && !d.phase.Initializing? && d.interpretation.None? && d.sourceIndex.None?
    requires NoneAwaiting(d.settlements) && d.actions.Some? && d.decision.Some?
    ensures Inv(Apply(d, r).driver)
  {
  }

  lemma FoldIngressKeepsInv(d: DriverState, r: Round)
    requires Inv(d.(ingress := None)) && Running(d) && !d.phase.Initializing? && d.interpretation.None?
    requires d.sourceIndex.None? && NoneAwaiting(d.settlements)
    ensures Inv(FoldIngress(d, r).driver)
  {
    if d.ingress.Some? && d.ingress.value.Proceed? && d.ingress.value.event.Some? && r.fold.Decided? {
      ApplyKeepsInv(d.(ingress := None, decision := Some(r.fold.decision), actions := Some(r.fold.actions)), r);
    }
  }

  lemma AcquireOrdinaryKeepsInv(d: DriverState, r: Round)
    requires Inv(d) && Running(d) && !d.phase.Initializing? && d.interpretation.None?
    requires d.sourceIndex.None? && NoneAwaiting(d.settlements)
    ensures Inv(AcquireOrdinary(d, r).driver)
  {
    FoldIngressKeepsInv(d.(ingress := Receive(r.ingress, d.ingress).slot), r);
  }

  lemma AcquireControlKeepsInv(d: DriverState, r: Round)
    requires Inv(d) && Running(d) && !d.phase.Initializing? && d.interpretation.None?
    requires d.sourceIndex.None? && NoneAwaiting(d.settlements)
    ensures Inv(AcquireControl(d, r).driver)
  {
    FoldIngressKeepsInv(d.(ingress := Receive(r.ingress, d.ingress).slot), r);
  }

  lemma SelectRowKeepsInv(d: DriverState, index: nat, r: Round)
    requires Inv(d) && Running(d) && !d.phase.Initializing? && d.interpretation.None? && d.sourceIndex.None?
    requires NextRow(d.settlements) == Some(index)
    ensures Inv(SelectRow(d, index, r).driver)
  {
    RemoveKeepsOrder(d.settlements, index, d.received);
    if d.settlements[index].Offer? {
      OfferHeldKeepsInv(Hold(d, index), r);
    } else {
      var row := Offer(d.settlements[index].settlement);
      InsertKeepsOrder(Remove(d.settlements, index), index, row, d.received);
      AcquireControlKeepsInv(d.(settlements := Insert(Remove(d.settlements, index), index, row)), r);
    }
  }

  lemma SelectKeepsInv(d: DriverState, r: Round)
    requires Inv(d) && Running(d) && !d.phase.Initializing? && d.interpretation.None?
    ensures Inv(Select(d, r).driver)
  {
    if d.sourceIndex.Some? {
      OfferHeldKeepsInv(d, r);
    } else if NextRow(d.settlements).Some? {
      SelectRowKeepsInv(d, NextRow(d.settlements).value, r);
    } else if !d.phase.SettlingInitialization? {
      AcquireOrdinaryKeepsInv(d, r);
    }
  }

  lemma EnqueueKeepsOrder(d: DriverState)
    requires Inv(d) && Running(d) && d.interpretation.Some?
    ensures Ordered(Enqueue(d)) && InvRunning(Enqueue(d)) && Enqueue(d).phase == d.phase
    ensures Enqueue(d).disposition.None? && Enqueue(d).additionalFailures == [] && Enqueue(d).interpretation.None?
    ensures Enqueue(d).sourceIndex.None?
  {
  }

  lemma JudgeKeepsInv(d: DriverState, status: SettlementStatus, decision: Option<Decision>)
    requires Ordered(d) && InvRunning(d) && Running(d) && d.disposition.None? && d.additionalFailures == [] && d.interpretation.None?
    requires decision.Some? && d.sourceIndex.None?
    ensures var e := Judge(d, status, decision);
      Inv(e) && !e.phase.Initializing? && (!e.phase.Retiring? ==> Running(e) && e.interpretation.None?)
  {
  }

  lemma ClassifyKeepsInv(d: DriverState, r: Round)
    requires Inv(d) && Running(d) && d.interpretation.Some?
    ensures var e := Classify(d, r).driver;
      Inv(e) && !e.phase.Initializing? && (!e.phase.Retiring? ==> Running(e) && e.interpretation.None?)
  {
    match r.status
    case ClassifierPanicked(payload) =>
    case Classified(status) =>
      EnqueueKeepsOrder(d);
      JudgeKeepsInv(Enqueue(d), status, d.decision);
  }

  /** Gathering leaves the queue and the held row empty, or had nothing to gather. */
  lemma GatherEmpties(d: DriverState)
    requires Inv(d) && d.phase.Retiring? && !(d.sourceInput.Some? && d.sourceReceived.Some?)
    ensures var g := GatherSettlements(d);
      && g.sourceInput.None? && g.settlements == [] && (g.active.None? ==> g == d)
      && g.disposition == d.disposition
  {
  }

  lemma RetireKeepsInv(d: DriverState, r: Round)
    requires Inv(d) && d.phase.Retiring?
    ensures Inv(Retire(d, r).driver)
  {
    if !(d.sourceInput.Some? && d.sourceReceived.Some?) {
      GatherEmpties(d);
      var g := GatherSettlements(d);
      assert Inv(RetirePrepared(g, r.retirePrepared).driver);
      assert Inv(RetireActive(g, r.retireActive).driver);
    }
  }

  lemma TurnKeepsInv(d: DriverState, r: Round)
    requires Inv(d) && Running(d)
    ensures Inv(Turn(d, r).driver)
  {
    if d.interpretation.Some? {
      ClassifyKeepsInv(d, r);
      var d1 := Classify(d, r).driver;
      if !d1.phase.Retiring? {
        SelectKeepsInv(d1, r);
      }
    } else {
      SelectKeepsInv(d, r);
    }
  }

  lemma ResolveActivationKeepsInv(d: DriverState, failures: seq<Token>)
    requires Inv(d) && d.phase.Activating? && d.environment.None? && d.actions.None? && d.activation.Some?
    ensures Inv(ResolveActivation(d, failures))
  {
  }

  lemma ActivateKeepsInv(d: DriverState, r: Round)
    requires Inv(d) && d.phase.Activating?
    ensures Inv(Activate(d, r).driver)
  {
    var d1 := d.(environment := r.activate.environment, actions := r.activate.actions, activation := r.activate.activation);
    assert Inv(d1);
    if d1.environment.None? && d1.actions.None? && d1.activation.Some? {
      ResolveActivationKeepsInv(d1, Receive(r.activate.run, None).failures);
    }
  }

  lemma StepKeepsInv(d: DriverState, r: Round)
    requires Inv(d)
    ensures Inv(Step(d, r).driver)
  {
    if Running(d) {
      TurnKeepsInv(d, r);
    } else {
      match d.phase
      case Prepared => assert Inv(Initialize(d, r).driver);
      case Activating => ActivateKeepsInv(d, r);
      case Retiring => RetireKeepsInv(d, r);
      case _ =>
    }
  }

  lemma {:induction false} RunKeepsInv(d: DriverState, rounds: seq<Round>)
    requires Inv(d)
    ensures Inv(Run(d, rounds).driver)
    decreases |rounds|
  {
    if rounds != [] {
      StepKeepsInv(d, rounds[0]);
      RunKeepsInv(Step(d, rounds[0]).driver, rounds[1..]);
    }
  }

  /** The index of the row held out of the queue is always in range: putting the row back
      cannot fail, and it puts the row between the newer and the older ones. */
  lemma HeldRowIsInRange(behavior: Token, environment: Token, rounds: seq<Round>)
    ensures var d := Run(New(behavior, environment), rounds).driver;
      d.sourceIndex.Some? && !d.phase.RetirementAttempted? ==>
        && d.sourceIndex.value <= |d.settlements|
        && forall row: SettlementTurn :: row.settlement.turn == d.heldTurn ==>
             NewestFirst(d.settlements[..d.sourceIndex.value] + [row] + d.settlements[d.sourceIndex.value..])
  {
    RunKeepsInv(New(behavior, environment), rounds);
  }
}
