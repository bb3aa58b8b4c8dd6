/** The cause log: which facts are causes, in which order they are kept, and that nothing
    but retirement follows the first one. */
module DriverCauses {
  import opened Basics
  import opened Operations
  import opened DriverModel
  import opened DriverInvariant

  /** The primary disposition followed by the additional failures. */
  function Log(d: DriverState): seq<Cause> {
    (if d.disposition.Some? then [d.disposition.value] else []) + Failures(d.additionalFailures)
  }

  function Failures(errors: seq<DriverError>): seq<Cause> {
    seq(|errors|, i requires 0 <= i < |errors| => Failed(errors[i]))
  }

  /** The causes that one observed event amounts to, in acquisition order. A contract
      failure appears here only where a host visibly kept an input or gave no reply. */
  function Causes(event: Event): seq<Cause> {
    match event
    case Initialized(reply) => FoldCauses(reply, true)
    case Folded(_, reply) => FoldCauses(reply, false)
    case ActivateCalled(_, _, _, reply) =>
      var ran := Receive(reply.run, None);
      var panics := Failures(ActivationPanics(ran.failures));
      if ran.abandoned then []
      else if reply.environment.Some? || reply.actions.Some? || reply.activation.None? then OrContract(panics)
      else if reply.activation.value.Refused? then [Failed(Activation(reply.activation.value.error))] + panics
      else panics
    case StatusRead(initializing, decided, reply) => StatusCauses(initializing, decided, reply)
    case OfferCalled(_, _, _, left, custody, ran, disposal) =>
      if ran.abandoned then [] else OfferCauses(left, custody, Failures(HostPanics(ran.failures)), disposal)
    case EventRequested(control, got) =>
      if got.abandoned then [] else IngressCauses(control, got.slot, Failures(HostPanics(got.failures)))
    case PublishCalled(Published) => []
    case PublishCalled(Withheld(request)) => [Completed(RetirementRequested(request))]
    case PublishCalled(PublishPanicked(payload)) => [Failed(HostExecutionPanicked(payload))]
    case ApplyCalled(_, _, reply) =>
      var ran := Receive(reply.run, None);
      var panics := Failures(HostPanics(ran.failures));
      if ran.abandoned then []
      else if reply.actions.Some? || reply.interpretation.None? then OrContract(panics)
      else panics
    case PreparedRetireCalled(_, _, reply) => Failures(RetirementPanics(Receive(reply.run, None).failures))
    case ActiveRetireCalled(_, _, _, _, _, _, _, reply) => Failures(RetirementPanics(Receive(reply.run, None).failures))
  }

  /** Missing custody is a contract failure only when no panic explains it. */
  function OrContract(panics: seq<Cause>): seq<Cause> {
    if panics == [] then [Failed(InterpreterContractFailed)] else panics
  }

  function FoldCauses(reply: FoldReply, initializing: bool): seq<Cause> {
    match reply
    case Decided(_, _) => []
    case Erred(error) => [Failed(Behavior(error))]
    case FoldPanicked(payload) =>
      [Failed(if initializing then InitializationPanicked(payload) else TransitionPanicked(payload))]
  }

  /** Corruption overrides stop, and a rejected initialization overrides stop. */
  function StatusCauses(initializing: bool, decided: Option<Decision>, reply: StatusReply): seq<Cause> {
    match reply
    case ClassifierPanicked(payload) => [Failed(HostExecutionPanicked(payload))]
    case Classified(status) =>
      if status.CorruptStatus? then [Failed(Settlement(Corrupt))]
      else if status.RejectedStatus? && initializing then [Failed(Settlement(Rejected))]
      else if decided == Some(Stop) then [Completed(Stopped)]
      else []
  }

  function OfferCauses(left: Option<Token>, custody: Option<SourceReply>, panics: seq<Cause>, disposal: Option<Token>): seq<Cause> {
    if left.Some? || custody.None? then OrContract(panics)
    else match custody.value
      case SourceExhausted(_) => panics + if disposal.Some? then [Failed(HostExecutionPanicked(disposal.value))] else []
      case SourceRetained(_) => panics
      case SourceAdmitted(_) => panics
      case SourceClosing(_) => [Failed(Settlement(SourceClosed))] + panics
  }

  function IngressCauses(control: bool, slot: Option<Ingress>, panics: seq<Cause>): seq<Cause> {
    if control && slot == Some(Proceed(None)) then [Failed(Settlement(SourceClosed))] + panics
    else if panics != [] then panics
    else match slot
      case Some(Proceed(None)) => [Completed(Exhausted)]
      case Some(Leave(request)) => [Completed(RetirementRequested(request))]
      case Some(Proceed(Some(_))) => []
      case None => []
  }

  function AllCauses(events: seq<Event>): seq<Cause> {
    if events == [] then [] else Causes(events[0]) + AllCauses(events[1..])
  }

  lemma {:induction false} AllCausesAppend(a: seq<Event>, b: seq<Event>)
    ensures AllCauses(a + b) == AllCauses(a) + AllCauses(b)
  {
    if a == [] {
      assert a + b == b;
    } else {
      assert (a + b)[1..] == a[1..] + b;
      AllCausesAppend(a[1..], b);
    }
  }

  lemma AllCausesOne(e: Event)
    ensures AllCauses([e]) == Causes(e)
  {
    assert AllCauses([e]) == Causes(e) + AllCauses([]);
  }

  // --------------------------------------------------------------- cause log

  lemma RejectLogs(d: DriverState, error: DriverError)
    requires d.disposition.None? ==> d.additionalFailures == []
    ensures Log(Reject(d, error)) == Log(d) + [Failed(error)]
  {
  }

  lemma RejectAllLogs(d: DriverState, errors: seq<DriverError>)
    requires d.disposition.None? ==> d.additionalFailures == []
    ensures Log(RejectAll(d, errors)) == Log(d) + Failures(errors)
  {
  }

  lemma ActivateLogs(d: DriverState, r: Round)
    requires Inv(d) && d.phase.Activating?
    ensures Log(Activate(d, r).driver) == Log(d) + Causes(Activate(d, r).events[0])
  {
    var ran := Receive(r.activate.run, None);
    var errors := ActivationPanics(ran.failures);
    var d1 := d.(environment := r.activate.environment, actions := r.activate.actions, activation := r.activate.activation);
    RejectAllLogs(d1, errors);
    if d1.activation.Some? && d1.activation.value.Refused? {
      var d2 := d1.(activation := None, residual := Some(d1.activation.value.residual));
      RejectLogs(d2, Activation(d1.activation.value.error));
      RejectAllLogs(Reject(d2, Activation(d1.activation.value.error)), errors);
    }
  }

  lemma ResolveOfferLogs(d: DriverState, failures: seq<Token>, disposal: Option<Token>)
    requires d.disposition.None? && d.additionalFailures == [] && d.sourceIndex.Some? && d.sourceReceived.Some?
    ensures Log(ResolveOffer(d, failures, disposal)) == OfferCauses(None, d.sourceReceived, Failures(HostPanics(failures)), disposal)
  {
    var row := Custody(d.sourceReceived.value.settlement, d.heldTurn);
    var d1 := d.(sourceIndex := None, sourceReceived := None);
    match d.sourceReceived.value
    case SourceExhausted(_) =>
      RejectAllLogs(d1, HostPanics(failures));
      if disposal.Some? {
        RejectLogs(RejectAll(d1, HostPanics(failures)), HostExecutionPanicked(disposal.value));
      }
    case SourceRetained(_) =>
    case SourceAdmitted(_) =>
    case SourceClosing(_) =>
      var d2 := d1.(settlements := Insert(d1.settlements, d.sourceIndex.value, Offer(row)));
      RejectAllLogs(Reject(d2, Settlement(SourceClosed)), HostPanics(failures));
  }

  lemma OfferHeldLogs(d: DriverState, r: Round)
    requires Inv(d) && Running(d) && d.sourceIndex.Some?
    ensures Log(OfferHeld(d, r).driver) == Causes(OfferHeld(d, r).events[0])
  {
    var ran := if d.sourceReceived.None? then Receive(r.offer.run, None) else Receipt(None, [], false);
    var d1 := if d.sourceReceived.Some? then d else
      d.(sourceInput := if r.offer.input.Some? then Some(Custody(r.offer.input.value, d.heldTurn)) else None,
         sourceReceived := r.offer.received);
    RejectAllLogs(d1, HostPanics(ran.failures));
    if !(d1.sourceInput.Some? || d1.sourceReceived.None?) {
      ResolveOfferLogs(d1, ran.failures, r.disposal);
    }
  }

  lemma ApplyLogs(d: DriverState, r: Round)
    requires d.disposition.None? && d.additionalFailures == [] && Running(d) && d.active.Some? && d.actions.Some?
    ensures Log(Apply(d, r).driver) == AllCauses(Apply(d, r).events)
  {
    AllCausesOne(Apply(d, r).events[0]);
    RejectAllLogs(d.(actions := r.apply.actions, interpretation := r.apply.interpretation),
                  HostPanics(Receive(r.apply.run, None).failures));
  }

  lemma FoldLogs(d: DriverState, event: Token, r: Round)
    requires d.disposition.None? && d.additionalFailures == [] && Running(d) && d.active.Some?
    ensures Log(Fold(d, event, r).driver) == AllCauses(Fold(d, event, r).events)
  {
    AllCausesOne(Folded(event, r.fold));
    if r.fold.Decided? {
      var d1 := d.(decision := Some(r.fold.decision), actions := Some(r.fold.actions));
      ApplyLogs(d1, r);
      AllCausesAppend([Folded(event, r.fold)], Apply(d1, r).events);
    }
  }

  /** With a reply in the slot and no failure, either the event is folded or the run completes. */
  lemma AcquireLogs(d: DriverState, control: bool, r: Round)
    requires Inv(d) && Running(d)
    ensures var p := if control then AcquireControl(d, r) else AcquireOrdinary(d, r);
            Log(p.driver) == AllCauses(p.events)
  {
    var got := Receive(r.ingress, d.ingress);
    var d1 := d.(ingress := got.slot);
    var asked := EventRequested(control, got);
    AllCausesOne(asked);
    RejectAllLogs(d1, HostPanics(got.failures));
    RejectAllLogs(Reject(d1.(ingress := None), Settlement(SourceClosed)), HostPanics(got.failures));
    if got.slot.Some? && got.slot.value.Proceed? && got.slot.value.event.Some? && got.failures == [] {
      var d2 := d1.(ingress := None);
      FoldLogs(d2, got.slot.value.event.value, r);
      AllCausesAppend([asked], Fold(d2, got.slot.value.event.value, r).events);
    }
  }

  lemma SelectLogs(d: DriverState, r: Round)
    requires Inv(d) && Running(d) && !d.phase.Initializing? && d.interpretation.None?
    ensures Log(Select(d, r).driver) == AllCauses(Select(d, r).events)
  {
    if d.sourceIndex.Some? {
      OfferHeldLogs(d, r);
      AllCausesOne(OfferHeld(d, r).events[0]);
    } else if NextRow(d.settlements).Some? {
      var index := NextRow(d.settlements).value;
      RemoveKeepsOrder(d.settlements, index, d.received);
      if d.settlements[index].Offer? {
        OfferHeldLogs(Hold(d, index), r);
        AllCausesOne(OfferHeld(Hold(d, index), r).events[0]);
      } else {
        var row := Offer(d.settlements[index].settlement);
        InsertKeepsOrder(Remove(d.settlements, index), index, row, d.received);
        AcquireLogs(d.(settlements := Insert(Remove(d.settlements, index), index, row)), true, r);
      }
    } else if d.phase.SettlingInitialization? {
      AllCausesOne(PublishCalled(r.publish));
    } else {
      AcquireLogs(d, false, r);
    }
  }

  lemma ClassifyLogs(d: DriverState, r: Round)
    requires Inv(d) && Running(d) && d.interpretation.Some?
    ensures Log(Classify(d, r).driver) == AllCauses(Classify(d, r).events)
  {
    AllCausesOne(Classify(d, r).events[0]);
  }

  lemma TurnLogs(d: DriverState, r: Round)
    requires Inv(d) && Running(d)
    ensures Log(Turn(d, r).driver) == AllCauses(Turn(d, r).events)
  {
    if d.interpretation.Some? {
      ClassifyKeepsInv(d, r);
      ClassifyLogs(d, r);
      var d1 := Classify(d, r).driver;
      if !d1.phase.Retiring? {
        SelectLogs(d1, r);
        AllCausesAppend(Classify(d, r).events, Select(d1, r).events);
      }
    } else {
      SelectLogs(d, r);
    }
  }

  lemma MoreFailuresLog(d: DriverState, errors: seq<DriverError>, d': DriverState)
    requires d'.disposition == d.disposition && d'.additionalFailures == d.additionalFailures + errors
    ensures Log(d') == Log(d) + Failures(errors)
  {
  }

  lemma RetireLogs(d: DriverState, r: Round)
    requires Inv(d) && d.phase.Retiring?
    ensures Log(Retire(d, r).driver) == Log(d) + AllCauses(Retire(d, r).events)
  {
    var p := Retire(d, r);
    if p.events != [] {
      var event := p.events[0];
      AllCausesOne(event);
      var run := if event.PreparedRetireCalled? then event.prepared.run else event.retired.run;
      MoreFailuresLog(d, RetirementPanics(Receive(run, None).failures), p.driver);
    }
  }

  lemma StepLogs(d: DriverState, r: Round)
    requires Inv(d)
    ensures Log(Step(d, r).driver) == Log(d) + AllCauses(Step(d, r).events)
  {
    match d.phase
    case Prepared => AllCausesOne(Initialized(r.fold));
    case Activating =>
      ActivateLogs(d, r);
      AllCausesOne(Activate(d, r).events[0]);
    case Retiring => RetireLogs(d, r);
    case RetirementAttempted =>
    case _ => TurnLogs(d, r);
  }

  /** Every cause ever acquired is kept, the first one as the primary disposition and the
      later ones as additional failures, in acquisition order. */
  lemma {:induction false} RunLogsEveryCause(d: DriverState, rounds: seq<Round>)
    requires Inv(d)
    ensures Log(Run(d, rounds).driver) == Log(d) + AllCauses(Run(d, rounds).events)
    decreases |rounds|
  {
    if rounds != [] {
      var first := Step(d, rounds[0]);
      StepLogs(d, rounds[0]);
      StepKeepsInv(d, rounds[0]);
      RunLogsEveryCause(first.driver, rounds[1..]);
      var rest := Run(first.driver, rounds[1..]);
      AllCausesAppend(first.events, rest.events);
      Reassociate(Log(d), AllCauses(first.events), AllCauses(rest.events));
    }
  }
}
