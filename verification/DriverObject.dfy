/** The Driver as the program has it: one object whose slots are updated in place. Each
    method is proved to make the corresponding transition of `DriverModel`. */
module DriverObject {
  import opened Basics
  import opened Operations
  import M = DriverModel
  import opened DriverHistory
  import opened DriverInvariant
  import opened DriverRetirement

  /** The loan was dropped inside the last call. */
  predicate Suspends(events: seq<M.Event>) {
    events != [] && Suspended(events[|events| - 1])
  }

  /** Where one receive of the loop ends: after how many replies, and whether it returned
      rather than waiting for another reply or losing its loan. */
  datatype LoopEnd = LoopEnd(used: nat, returned: bool)

  function EndOf(d: M.DriverState, rounds: seq<M.Round>): (end: LoopEnd)
    ensures end.used <= |rounds|
    decreases |rounds|
  {
    if d.phase.RetirementAttempted? then LoopEnd(0, true)
    else if rounds == [] then LoopEnd(0, false)
    else
      var turn := M.Step(d, rounds[0]);
      if Suspends(turn.events) then LoopEnd(1, false)
      else if d.phase.Retiring? then LoopEnd(1, true)
      else
        var rest := EndOf(turn.driver, rounds[1..]);
        LoopEnd(rest.used + 1, rest.returned)
  }

  class Driver {
    const behavior: Token
    var environment: Option<Token>
    var active: Option<Token>
    var phase: M.Phase
    var actions: Option<Token>
    var activation: Option<M.ActivationResult>
    var interpretation: Option<Token>
    var sourceInput: Option<M.Custody>
    var sourceReceived: Option<M.SourceReply>
    var sourceIndex: Option<nat>
    var ingress: Option<M.Ingress>
    var decision: Option<M.Decision>
    var settlements: seq<M.SettlementTurn>
    var retirementInput: Option<seq<M.Custody>>
    var residual: Option<Token>
    var disposition: Option<M.Cause>
    var additionalFailures: seq<M.DriverError>
    var received: nat
    var heldTurn: nat

    function State(): M.DriverState
      reads this
    {
      M.DriverState(behavior, environment, active, phase, actions, activation, interpretation, sourceInput,
                    sourceReceived, sourceIndex, ingress, decision, settlements, retirementInput, residual,
                    disposition, additionalFailures, received, heldTurn)
    }

    constructor (behavior: Token, environment: Token)
      ensures State() == M.New(behavior, environment) && Inv(State())
    {
      this.behavior := behavior;
      this.environment, active, phase := Some(environment), None, M.Prepared;
      actions, activation, interpretation := None, None, None;
      sourceInput, sourceReceived, sourceIndex := None, None, None;
      ingress, decision, settlements, retirementInput := None, None, [], None;
      residual, disposition, additionalFailures := None, None, [];
      received, heldTurn := 0, 0;
    }

    method Reject(error: M.DriverError)
      modifies this
      ensures State() == M.Reject(old(State()), error)
    {
      if disposition.None? {
        disposition := Some(M.Failed(error));
      } else {
        additionalFailures := additionalFailures + [error];
      }
      phase := M.Retiring;
    }

    method Complete(completion: M.Completion)
      modifies this
      ensures State() == M.Complete(old(State()), completion)
    {
      if disposition.None? {
        disposition := Some(M.Completed(completion));
      }
      phase := M.Retiring;
    }

    method ReceiveActivationFailures(failures: seq<Token>)
      modifies this
      ensures State() == M.RejectAll(old(State()), M.ActivationPanics(failures))
    {
      var i := 0;
      while i < |failures|
        invariant 0 <= i <= |failures|
        invariant State() == M.RejectAll(old(State()), M.ActivationPanics(failures[..i]))
      {
        RejectNext(old(State()), M.ActivationPanics(failures[..i]), M.ActivationPanicked(failures[i]));
        assert M.ActivationPanics(failures[..i + 1]) == M.ActivationPanics(failures[..i]) + [M.ActivationPanicked(failures[i])];
        Reject(M.ActivationPanicked(failures[i]));
        i := i + 1;
      }
      assert failures[..i] == failures;
    }

    method ReceiveExecutionFailures(failures: seq<Token>)
      modifies this
      ensures State() == M.RejectAll(old(State()), M.HostPanics(failures))
    {
      var i := 0;
      while i < |failures|
        invariant 0 <= i <= |failures|
        invariant State() == M.RejectAll(old(State()), M.HostPanics(failures[..i]))
      {
        RejectNext(old(State()), M.HostPanics(failures[..i]), M.HostExecutionPanicked(failures[i]));
        assert M.HostPanics(failures[..i + 1]) == M.HostPanics(failures[..i]) + [M.HostExecutionPanicked(failures[i])];
        Reject(M.HostExecutionPanicked(failures[i]));
        i := i + 1;
      }
      assert failures[..i] == failures;
    }

    static lemma RejectNext(d: M.DriverState, errors: seq<M.DriverError>, error: M.DriverError)
      ensures M.RejectAll(d, errors + [error]) == M.Reject(M.RejectAll(d, errors), error)
    {
      if errors == [] {
        assert errors + [error] == [error];
      } else {
        assert (errors + [error])[1..] == errors[1..] + [error];
        Reassociate(d.additionalFailures, errors[1..], [error]);
        Reassociate(d.additionalFailures, errors, [error]);
      }
    }

    // ------------------------------------------------------ before activation

    method InitializeBehavior(r: M.Round) returns (events: seq<M.Event>)
      requires phase.Prepared?
      modifies this
      ensures M.Progress(State(), events) == M.Initialize(old(State()), r)
    {
      phase := M.Activating;
      match r.fold {
        case Decided(chosen, step) =>
          decision := Some(step);
          actions := Some(chosen);
        case Erred(error) => Reject(M.Behavior(error));
        case FoldPanicked(payload) => Reject(M.InitializationPanicked(payload));
      }
      events := [M.Initialized(r.fold)];
    }

    method ActivateHost(r: M.Round) returns (events: seq<M.Event>, suspended: bool)
      requires phase.Activating?
      modifies this
      ensures M.Progress(State(), events) == M.Activate(old(State()), r)
      ensures suspended == Receive(r.activate.run, None).abandoned == Suspends(events)
    {
      events := [M.ActivateCalled(environment, actions, activation, r.activate)];
      environment, actions, activation := r.activate.environment, r.activate.actions, r.activate.activation;
      var reply, failures, log;
      reply, failures, suspended, log := ReceiveOperation(r.activate.run, None);
      if suspended {
        return;
      }
      if environment.Some? || actions.Some? || activation.None? {
        ReceiveActivationFailures(failures);
        if !phase.Retiring? {
          Reject(M.InterpreterContractFailed);
        }
        return;
      }
      ResolveActivation(failures);
    }

    method ResolveActivation(failures: seq<Token>)
      requires activation.Some? && phase.Activating?
      modifies this
      ensures State() == M.ResolveActivation(old(State()), failures)
    {
      TakeActivation();
      ReceiveActivationFailures(failures);
    }

    method TakeActivation()
      requires activation.Some? && phase.Activating?
      modifies this
      ensures State() == M.TakeActivation(old(State()))
    {
      var acquired := activation.value;
      activation := None;
      match acquired {
        case Established(owner, interpreted) =>
          active, interpretation, phase := Some(owner), Some(interpreted), M.Initializing;
        case Refused(error, left) =>
          residual := Some(left);
          Reject(M.Activation(error));
      }
    }

    // ------------------------------------------------------------ one turn

    method ClassifyInterpretation(r: M.Round) returns (events: seq<M.Event>)
      requires interpretation.Some?
      modifies this
      ensures M.Progress(State(), events) == M.Classify(old(State()), r)
    {
      events := [M.StatusRead(phase.Initializing?, decision, r.status)];
      if r.status.ClassifierPanicked? {
        Reject(M.HostExecutionPanicked(r.status.payload));
        return;
      }
      var decided := decision;
      Enqueue();
      Judge(r.status.status, decided);
    }

    method Enqueue()
      requires interpretation.Some?
      modifies this
      ensures State() == M.Enqueue(old(State()))
    {
      settlements := [M.Offer(M.Custody(interpretation.value, received))] + settlements;
      interpretation, decision, received := None, None, received + 1;
    }

    method Judge(status: M.SettlementStatus, decided: Option<M.Decision>)
      modifies this
      ensures State() == M.Judge(old(State()), status, decided)
    {
      if status.CorruptStatus? {
        Reject(M.Settlement(M.Corrupt));
      } else if status.RejectedStatus? && phase.Initializing? {
        Reject(M.Settlement(M.Rejected));
      } else {
        match decided {
          case Some(Stop) => Complete(M.Stopped);
          case Some(Continue) =>
            if phase.Initializing? {
              phase := M.SettlingInitialization;
            }
          case None => Reject(M.InterpreterContractFailed);
        }
      }
    }

    method OfferHeldRow(r: M.Round) returns (events: seq<M.Event>, suspended: bool)
      requires Inv(State()) && Running(State()) && sourceIndex.Some?
      modifies this
      ensures M.Progress(State(), events) == M.OfferHeld(old(State()), r)
      ensures suspended == (old(sourceReceived).None? && Receive(r.offer.run, None).abandoned) == Suspends(events)
    {
      var called := sourceReceived.None?;
      var lent := if sourceInput.Some? then Some(sourceInput.value.token) else None;
      var failures := [];
      suspended := false;
      if called {
        sourceInput := if r.offer.input.Some? then Some(M.Custody(r.offer.input.value, heldTurn)) else None;
        sourceReceived := r.offer.received;
        var reply, log;
        reply, failures, suspended, log := ReceiveOperation(r.offer.run, None);
      }
      var left := if sourceInput.Some? then Some(sourceInput.value.token) else None;
      var ran := if called then Receive(r.offer.run, None) else Receipt(None, [], false);
      events := [M.OfferCalled(called, heldTurn, lent, left, sourceReceived, ran, r.disposal)];
      if suspended {
        return;
      }
      if sourceInput.Some? || sourceReceived.None? {
        ReceiveExecutionFailures(failures);
        if !phase.Retiring? {
          Reject(M.InterpreterContractFailed);
        }
      } else {
        ResolveReply(failures, r.disposal);
      }
    }

    /** The index of the held row is always in range, so inserting the row cannot fail. */
    method ResolveReply(failures: seq<Token>, disposal: Option<Token>)
      requires sourceIndex.Some? && sourceReceived.Some? && sourceIndex.value <= |settlements|
      modifies this
      ensures State() == M.ResolveOffer(old(State()), failures, disposal)
    {
      var index, reply := sourceIndex.value, sourceReceived.value;
      sourceIndex, sourceReceived := None, None;
      var row := M.Custody(reply.settlement, heldTurn);
      match reply {
        case SourceExhausted(_) =>
          ReceiveExecutionFailures(failures);
          if disposal.Some? {
            Reject(M.HostExecutionPanicked(disposal.value));
          }
        case SourceRetained(_) =>
          settlements := settlements[..index] + [M.Retained(row)] + settlements[index..];
          ReceiveExecutionFailures(failures);
        case SourceAdmitted(_) =>
          settlements := settlements[..index] + [M.AwaitSource(row)] + settlements[index..];
          ReceiveExecutionFailures(failures);
        case SourceClosing(_) =>
          settlements := settlements[..index] + [M.Offer(row)] + settlements[index..];
          Reject(M.Settlement(M.SourceClosed));
          ReceiveExecutionFailures(failures);
      }
    }

    /** A linear search for the first row that is not retained. */
    method FindNextRow() returns (index: Option<nat>)
      ensures index == M.NextRow(settlements)
    {
      var i := 0;
      while i < |settlements|
        invariant 0 <= i <= |settlements|
        invariant forall j :: 0 <= j < i ==> settlements[j].Retained?
      {
        if !settlements[i].Retained? {
          assert M.NextRow(settlements) == Some(i);
          return Some(i);
        }
        i := i + 1;
      }
      assert M.NextRow(settlements).None?;
      return None;
    }

    method PublishIncarnation(r: M.Round) returns (events: seq<M.Event>)
      modifies this
      ensures M.Progress(State(), events) == M.Publish(old(State()), r)
    {
      match r.publish {
        case Published => phase := M.Active;
        case Withheld(request) => Complete(M.RetirementRequested(request));
        case PublishPanicked(payload) => Reject(M.HostExecutionPanicked(payload));
      }
      events := [M.PublishCalled(r.publish)];
    }

    method AcquireControlEvent(r: M.Round) returns (events: seq<M.Event>, suspended: bool)
      requires active.Some? && ingress.None? && Running(State())
      modifies this
      ensures M.Progress(State(), events) == M.AcquireControl(old(State()), r)
      ensures (suspended <==> Suspends(events)) && (suspended ==> !M.Uninterrupted(r))
    {
      var failures, log;
      ingress, failures, suspended, log := ReceiveOperation(r.ingress, ingress);
      events := [M.EventRequested(true, Receipt(ingress, failures, suspended))];
      if suspended {
        return;
      }
      if ingress == Some(M.Proceed(None)) {
        ingress := None;
        Reject(M.Settlement(M.SourceClosed));
      }
      ReceiveExecutionFailures(failures);
      if phase.Retiring? {
        return;
      }
      var folded;
      folded, suspended := FoldAcquired(r);
      events := events + folded;
    }

    method AcquireOrdinaryEvent(r: M.Round) returns (events: seq<M.Event>, suspended: bool)
      requires active.Some? && ingress.None? && Running(State())
      modifies this
      ensures M.Progress(State(), events) == M.AcquireOrdinary(old(State()), r)
      ensures (suspended <==> Suspends(events)) && (suspended ==> !M.Uninterrupted(r))
    {
      var failures, log;
      ingress, failures, suspended, log := ReceiveOperation(r.ingress, ingress);
      events := [M.EventRequested(false, Receipt(ingress, failures, suspended))];
      if suspended {
        return;
      }
      ReceiveExecutionFailures(failures);
      if phase.Retiring? {
        return;
      }
      var folded;
      folded, suspended := FoldAcquired(r);
      events := events + folded;
    }

    /** The reply is in its slot here: a missing one has already ended the turn. */
    method FoldAcquired(r: M.Round) returns (events: seq<M.Event>, suspended: bool)
      requires active.Some? && ingress.Some?
      modifies this
      ensures M.Progress(State(), events) == M.FoldIngress(old(State()), r)
      ensures (suspended <==> Suspends(events)) && (suspended ==> !M.Uninterrupted(r))
    {
      events, suspended := [], false;
      var acquired := ingress.value;
      ingress := None;
      match acquired {
        case Proceed(None) => Complete(M.Exhausted);
        case Leave(request) => Complete(M.RetirementRequested(request));
        case Proceed(Some(event)) => events, suspended := FoldEvent(event, r);
      }
    }

    method FoldEvent(event: Token, r: M.Round) returns (events: seq<M.Event>, suspended: bool)
      requires active.Some?
      modifies this
      ensures M.Progress(State(), events) == M.Fold(old(State()), event, r)
      ensures (suspended <==> Suspends(events)) && (suspended ==> !M.Uninterrupted(r))
    {
      events, suspended := [M.Folded(event, r.fold)], false;
      match r.fold {
        case Erred(error) => Reject(M.Behavior(error));
        case FoldPanicked(payload) => Reject(M.TransitionPanicked(payload));
        case Decided(chosen, step) =>
          decision, actions := Some(step), Some(chosen);
          var applied;
          applied, suspended := ApplyActions(r);
          events := events + applied;
      }
    }

    method ApplyActions(r: M.Round) returns (events: seq<M.Event>, suspended: bool)
      requires active.Some? && actions.Some?
      modifies this
      ensures M.Progress(State(), events) == M.Apply(old(State()), r)
      ensures suspended == Receive(r.apply.run, None).abandoned == Suspends(events)
    {
      events := [M.ApplyCalled(actions.value, interpretation, r.apply)];
      actions, interpretation := r.apply.actions, r.apply.interpretation;
      var reply, failures, log;
      reply, failures, suspended, log := ReceiveOperation(r.apply.run, None);
      if suspended {
        return;
      }
      ReceiveExecutionFailures(failures);
      if (actions.Some? || interpretation.None?) && !phase.Retiring? {
        Reject(M.InterpreterContractFailed);
      }
    }

    /** The row at `index` leaves the queue: to be offered, or back into it as an offer while
        a control event is acquired. */
    method TakeRow(index: nat, r: M.Round) returns (events: seq<M.Event>, suspended: bool)
      requires Inv(State()) && Running(State()) && !phase.Initializing? && interpretation.None? && sourceIndex.None?
      requires M.NextRow(settlements) == Some(index)
      modifies this
      ensures M.Progress(State(), events) == M.SelectRow(old(State()), index, r)
      ensures (suspended <==> Suspends(events)) && (suspended ==> !M.Uninterrupted(r))
    {
      RemoveKeepsOrder(settlements, index, received);
      var turn := settlements[index];
      settlements := settlements[..index] + settlements[index + 1..];
      if turn.Offer? {
        sourceIndex, sourceInput, heldTurn := Some(index), Some(turn.settlement), turn.settlement.turn;
        assert State() == M.Hold(old(State()), index);
        events, suspended := OfferHeldRow(r);
      } else {
        settlements := settlements[..index] + [M.Offer(turn.settlement)] + settlements[index..];
        events, suspended := AcquireControlEvent(r);
      }
    }

    /** Taking the next row out of the queue, after which the loop goes round once more. */
    method SelectNext(r: M.Round) returns (events: seq<M.Event>, suspended: bool)
      requires Inv(State()) && Running(State()) && !phase.Initializing? && interpretation.None?
      modifies this
      ensures M.Progress(State(), events) == M.Select(old(State()), r)
      ensures (suspended <==> Suspends(events)) && (suspended ==> !M.Uninterrupted(r))
    {
      if sourceIndex.Some? {
        events, suspended := OfferHeldRow(r);
        return;
      }
      var next := FindNextRow();
      if next.Some? {
        events, suspended := TakeRow(next.value, r);
      } else if phase.SettlingInitialization? {
        events := PublishIncarnation(r);
        suspended := false;
      } else {
        events, suspended := AcquireOrdinaryEvent(r);
      }
    }

    method TakeTurn(r: M.Round) returns (events: seq<M.Event>, suspended: bool)
      requires Inv(State()) && Running(State())
      modifies this
      ensures M.Progress(State(), events) == M.Turn(old(State()), r)
      ensures (suspended <==> Suspends(events)) && (suspended ==> !M.Uninterrupted(r))
    {
      events, suspended := [], false;
      if interpretation.Some? {
        ClassifyKeepsInv(State(), r);
        events := ClassifyInterpretation(r);
        if phase.Retiring? {
          return;
        }
      }
      var selected;
      selected, suspended := SelectNext(r);
      events := events + selected;
    }

    // ------------------------------------------------------------ retirement

    method GatherSettlements()
      requires Inv(State()) && phase.Retiring? && !(sourceInput.Some? && sourceReceived.Some?)
      modifies this
      ensures State() == M.GatherSettlements(old(State()))
    {
      if retirementInput.None? && active.Some? {
        if sourceInput.Some? && sourceIndex.Some? {
          var index, settlement := sourceIndex.value, sourceInput.value;
          sourceIndex, sourceInput := None, None;
          settlements := settlements[..index] + [M.Retained(settlement)] + settlements[index..];
        }
        retirementInput := Some(M.Custodies(settlements));
        settlements := [];
      }
    }

    method ReceiveRetirementFailures(failures: seq<Token>)
      modifies this
      ensures State() == M.WithRetirementPanics(old(State()), failures)
    {
      var i := 0;
      while i < |failures|
        invariant 0 <= i <= |failures|
        invariant State() == M.WithRetirementPanics(old(State()), failures[..i])
      {
        assert M.RetirementPanics(failures[..i + 1]) == M.RetirementPanics(failures[..i]) + [M.RetirementPanicked(failures[i])];
        Reassociate(old(additionalFailures), M.RetirementPanics(failures[..i]), [M.RetirementPanicked(failures[i])]);
        additionalFailures := additionalFailures + [M.RetirementPanicked(failures[i])];
        i := i + 1;
      }
      assert failures[..i] == failures;
    }

    method TakePrepared(reply: M.PreparedRetireReply)
      modifies this
      ensures State() == M.AfterPrepared(old(State()), reply)
    {
      phase := M.RetirementAttempted;
      environment, actions, residual := reply.environment, reply.actions, reply.residual;
    }

    method RetirePrepared(reply: M.PreparedRetireReply) returns (events: seq<M.Event>, suspended: bool)
      modifies this
      ensures M.Progress(State(), events) == M.RetirePrepared(old(State()), reply)
      ensures suspended == Receive(reply.run, None).abandoned == Suspends(events)
    {
      events := [M.PreparedRetireCalled(environment, actions, reply)];
      TakePrepared(reply);
      var unit, failures, log;
      unit, failures, suspended, log := ReceiveOperation(reply.run, None);
      ReceiveRetirementFailures(failures);
    }

    method TakeOwners(reply: M.ActiveRetireReply)
      modifies this
      ensures State() == M.OwnersAfter(old(State()), reply)
    {
      phase, active, residual := M.RetirementAttempted, reply.active, reply.residual;
      actions, interpretation := reply.actions, reply.interpretation;
    }

    method TakeLoans(reply: M.ActiveRetireReply)
      modifies this
      ensures State() == M.LoansAfter(old(State()), reply)
    {
      sourceReceived, sourceIndex := reply.source, reply.index;
      ingress, retirementInput := reply.ingress, reply.settlements;
    }

    method RetireActive(reply: M.ActiveRetireReply) returns (events: seq<M.Event>, suspended: bool)
      modifies this
      ensures M.Progress(State(), events) == M.RetireActive(old(State()), reply)
      ensures suspended == Receive(reply.run, None).abandoned == Suspends(events)
    {
      events := [M.ActiveRetireCalled(active, actions, interpretation, sourceReceived, sourceIndex, ingress, retirementInput, reply)];
      TakeOwners(reply);
      TakeLoans(reply);
      var unit, failures, log;
      unit, failures, suspended, log := ReceiveOperation(reply.run, None);
      ReceiveRetirementFailures(failures);
    }

    /** Suspended exactly when the loan is dropped inside the retirement that is called. */
    method RetireOwner(r: M.Round) returns (events: seq<M.Event>, suspended: bool)
      requires Inv(State()) && phase.Retiring?
      modifies this
      ensures M.Progress(State(), events) == M.Retire(old(State()), r)
      ensures (suspended <==> Suspends(events)) && (suspended ==> !M.Uninterrupted(r))
    {
      events, suspended := [], false;
      if sourceInput.Some? && sourceReceived.Some? {
        return;
      }
      GatherSettlements();
      if environment.Some? && active.None? && residual.None? {
        events, suspended := RetirePrepared(r.retirePrepared);
      } else if environment.None? && active.Some? && residual.None? {
        events, suspended := RetireActive(r.retireActive);
      }
    }

    // ------------------------------------------------------------- the loop

    static lemma RunThenStep(d: M.DriverState, rounds: seq<M.Round>, r: M.Round)
      ensures var before := M.Run(d, rounds);
        var last := M.Step(before.driver, r);
        M.Run(d, rounds + [r]) == M.Progress(last.driver, before.events + last.events)
      decreases |rounds|
    {
      if rounds == [] {
        assert [r][1..] == [];
        assert rounds + [r] == [r];
      } else {
        var first := M.Step(d, rounds[0]);
        assert (rounds + [r])[1..] == rounds[1..] + [r];
        RunThenStep(first.driver, rounds[1..], r);
        var before := M.Run(first.driver, rounds[1..]);
        Reassociate(first.events, before.events, M.Step(before.driver, r).events);
      }
    }

    /** `d` and `events` are where the first `used` rounds lead from `start`. */
    static ghost predicate Reached(start: M.DriverState, rounds: seq<M.Round>, used: nat, d: M.DriverState, events: seq<M.Event>) {
      && used <= |rounds| && M.Progress(d, events) == M.Run(start, rounds[..used])
      && Inv(d) && (Tidy(start) && AllConserving(rounds) ==> Tidy(d))
    }

    /** What one more turn of a run keeps. */
    static lemma TurnKeepsReached(d: M.DriverState, r: M.Round)
      requires Inv(d)
      ensures Inv(M.Step(d, r).driver) && (d.phase.Retiring? ==> Terminal(M.Step(d, r).driver))
      ensures Tidy(d) && Conserving(r) ==> Tidy(M.Step(d, r).driver)
      ensures Tidy(d) && Conserving(r) && d.phase.Retiring? ==> Vacated(M.Step(d, r).driver)
    {
      StepKeepsInv(d, r);
      StepPhase(d, r);
      if Tidy(d) && Conserving(r) {
        StepStaysTidy(d, r);
      }
    }

    static lemma OneMoreTurn(start: M.DriverState, rounds: seq<M.Round>, used: nat, d: M.DriverState, events: seq<M.Event>)
      returns (next: M.DriverState, more: seq<M.Event>)
      requires Reached(start, rounds, used, d, events) && used < |rounds|
      ensures M.Progress(next, more) == M.Step(d, rounds[used])
      ensures Reached(start, rounds, used + 1, next, events + more)
      ensures d.phase.Retiring? ==> Terminal(next)
      ensures d.phase.Retiring? && Tidy(start) && AllConserving(rounds) ==> Vacated(next)
    {
      RunThenStep(start, rounds[..used], rounds[used]);
      assert rounds[..used + 1] == rounds[..used] + [rounds[used]];
      TurnKeepsReached(d, rounds[used]);
      next, more := M.Step(d, rounds[used]).driver, M.Step(d, rounds[used]).events;
    }

    /** How the end of the loop moves with one turn. */
    static lemma EndMoves(d: M.DriverState, rounds: seq<M.Round>, used: nat, next: M.DriverState, more: seq<M.Event>)
      requires used < |rounds| && !d.phase.RetirementAttempted? && M.Progress(next, more) == M.Step(d, rounds[used])
      ensures EndOf(d, rounds[used..]) ==
        if Suspends(more) then LoopEnd(1, false)
        else if d.phase.Retiring? then LoopEnd(1, true)
        else Shifted(EndOf(next, rounds[used + 1..]), 1)
    {
      assert rounds[used..][1..] == rounds[used + 1..];
    }

    method Iterate(r: M.Round) returns (events: seq<M.Event>, suspended: bool)
      requires Inv(State())
      modifies this
      ensures M.Progress(State(), events) == M.Step(old(State()), r)
      ensures (suspended <==> Suspends(events)) && (suspended ==> !M.Uninterrupted(r))
    {
      events, suspended := [], false;
      match phase {
        case Prepared => events := InitializeBehavior(r);
        case Activating => events, suspended := ActivateHost(r);
        case Retiring => events, suspended := RetireOwner(r);
        case RetirementAttempted =>
        case _ => events, suspended := TakeTurn(r);
      }
    }

    /** The causal loop. It ends when a retirement turn is over, when the loan is dropped
        inside a pending operation, or when no further reply has arrived. */
    method Drive(rounds: seq<M.Round>) returns (events: seq<M.Event>, used: nat, returned: bool)
      requires Inv(State())
      modifies this
      ensures LoopEnd(used, returned) == EndOf(old(State()), rounds)
      ensures used <= |rounds| && M.Progress(State(), events) == M.Run(old(State()), rounds[..used])
      ensures Inv(State()) && (returned ==> Terminal(State()))
      ensures !returned ==> used == |rounds| || exists i :: 0 <= i < used && !M.Uninterrupted(rounds[i])
      ensures Tidy(old(State())) && AllConserving(rounds) && returned ==> Vacated(State())
    {
      events, used, returned := [], 0, false;
      assert rounds[..0] == [] && rounds[0..] == rounds;
      while true
        invariant !returned && Reached(old(State()), rounds, used, State(), events)
        invariant EndOf(old(State()), rounds) == Shifted(EndOf(State(), rounds[used..]), used)
        decreases |rounds| - used
      {
        if phase.RetirementAttempted? {
          returned := true;
          return;
        }
        if used == |rounds| {
          return;
        }
        var retiring := phase.Retiring?;
        ghost var next, turn := OneMoreTurn(old(State()), rounds, used, State(), events);
        EndMoves(State(), rounds, used, next, turn);
        var more, suspended := Iterate(rounds[used]);
        events, used := events + more, used + 1;
        if suspended {
          return;
        }
        if retiring {
          returned := true;
          return;
        }
      }
    }
  }

  function Shifted(end: LoopEnd, used: nat): LoopEnd {
    end.(used := end.used + used)
  }

  /** A complete retirement, or the surviving Driver with everything it still owns. */
  datatype RunReply = Complete(retirement: Retirement) | Surviving(owner: Driver)

  /** The borrowing run. Occupied or empty slots are left alone, a dropped or pending loan
      leaves the Driver in its slot, and a finished one moves it into exactly one reply. */
  method ReceiveRun(driver: Driver?, received: Option<RunReply>, rounds: seq<M.Round>)
    returns (kept: Driver?, reply: Option<RunReply>, ghost used: nat)
    requires driver != null ==> Inv(driver.State())
    modifies driver
    ensures received.Some? || driver == null ==> kept == driver && reply == received && used == 0
    ensures used <= |rounds|
    ensures driver != null ==> driver.State() == M.Run(old(driver.State()), rounds[..used]).driver && Inv(driver.State())
    ensures received.None? && driver != null ==> LoopEnd(used, reply.Some?) == EndOf(old(driver.State()), rounds)
    ensures received.None? && driver != null && reply.None? ==>
      used == |rounds| || exists i :: 0 <= i < used && !M.Uninterrupted(rounds[i])
    ensures received.None? && driver != null ==>
      if reply.None? then kept == driver
      else
        && kept == null && Terminal(driver.State())
        && reply.value == if Vacated(driver.State()) then Complete(Reply(driver.State())) else Surviving(driver)
    ensures received.None? && driver != null && Tidy(old(driver.State())) && AllConserving(rounds) && reply.Some? ==>
      reply.value.Complete?
  {
    kept, reply, used := driver, received, 0;
    assert driver != null ==> M.Run(driver.State(), rounds[..0]).driver == driver.State();
    if received.Some? || driver == null {
      return;
    }
    var events, count, returned := driver.Drive(rounds);
    used := count;
    if returned {
      kept := null;
      if Vacated(driver.State()) {
        reply := Some(Complete(Retirement(driver.behavior, driver.residual.value, driver.disposition.value, driver.additionalFailures)));
      } else {
        reply := Some(Surviving(driver));
      }
    }
  }
}
