/** Conservation of every affine value: what the Driver owns is exactly what it was given
    minus what it lent out or surrendered, for any host. Everything is counted per value:
    `t` is an arbitrary token throughout. */
module DriverConservation {
  import opened Basics
  import opened Operations
  import opened DriverModel
  import opened DriverInvariant
  import opened DriverHistory

  function InActivation(slot: Option<ActivationResult>, t: Token): nat {
    match slot
    case None => 0
    case Some(Established(owner, interpretation)) => One(owner == t) + One(interpretation == t)
    case Some(Refused(error, residual)) => One(error == t) + One(residual == t)
  }

  function InSource(slot: Option<SourceReply>, t: Token): nat {
    One(slot.Some? && slot.value.settlement == t)
  }

  function InCustody(slot: Option<Custody>, t: Token): nat {
    One(slot.Some? && slot.value.token == t)
  }

  function InIngress(slot: Option<Ingress>, t: Token): nat {
    match slot
    case None => 0
    case Some(Proceed(event)) => InSlot(event, t)
    case Some(Leave(request)) => One(request == t)
  }

  function InCustodies(rows: seq<Custody>, t: Token): nat {
    if rows == [] then 0 else One(rows[0].token == t) + InCustodies(rows[1..], t)
  }

  function InInput(slot: Option<seq<Custody>>, t: Token): nat {
    if slot.None? then 0 else InCustodies(slot.value, t)
  }

  function InError(error: DriverError, t: Token): nat {
    match error
    case Behavior(e) => One(e == t)
    case Activation(e) => One(e == t)
    case InitializationPanicked(p) => One(p == t)
    case TransitionPanicked(p) => One(p == t)
    case HostExecutionPanicked(p) => One(p == t)
    case ActivationPanicked(p) => One(p == t)
    case RetirementPanicked(p) => One(p == t)
    case InterpreterContractFailed => 0
    case Settlement(_) => 0
  }

  function InErrors(errors: seq<DriverError>, t: Token): nat {
    if errors == [] then 0 else InError(errors[0], t) + InErrors(errors[1..], t)
  }

  function InCause(slot: Option<Cause>, t: Token): nat {
    match slot
    case None => 0
    case Some(Completed(RetirementRequested(request))) => One(request == t)
    case Some(Completed(_)) => 0
    case Some(Failed(error)) => InError(error, t)
  }

  /** Copies of `t` in the owning slots of the Driver. */
  function Held(d: DriverState, t: Token): nat {
    InSlot(d.environment, t) + InSlot(d.active, t) + InActivation(d.activation, t) + InSlot(d.residual, t)
    + InSlot(d.actions, t) + InSlot(d.interpretation, t) + InIngress(d.ingress, t)
    + InCustody(d.sourceInput, t) + InSource(d.sourceReceived, t)
    + InCustodies(Custodies(d.settlements), t) + InInput(d.retirementInput, t)
    + InCause(d.disposition, t) + InErrors(d.additionalFailures, t)
  }

  function InFold(reply: FoldReply, t: Token): nat {
    match reply
    case Decided(actions, _) => One(actions == t)
    case Erred(error) => One(error == t)
    case FoldPanicked(payload) => One(payload == t)
  }

  function InFailures(run: Operation<()>, t: Token): nat {
    InSeq(Receive(run, None).failures, t)
  }

  predicate Discharges(e: Event) {
    e.OfferCalled? && !e.ran.abandoned && e.left.None? && e.custody.Some? && e.custody.value.SourceExhausted?
  }

  /** What leaves Driver custody at an event: the contents of the slots on loan, the event
      consumed by a fold, the settlement discharged by an exhausted source. */
  function Given(e: Event, t: Token): nat {
    match e
    case Initialized(_) => 0
    case ActivateCalled(environment, actions, activation, _) =>
      InSlot(environment, t) + InSlot(actions, t) + InActivation(activation, t)
    case StatusRead(_, _, _) => 0
    case OfferCalled(called, _, lent, _, custody, _, _) =>
      (if called then InSlot(lent, t) else 0) + (if Discharges(e) then InSource(custody, t) else 0)
    case EventRequested(_, _) => 0
    case Folded(event, _) => One(event == t)
    case PublishCalled(_) => 0
    case ApplyCalled(actions, interpretation, _) => One(actions == t) + InSlot(interpretation, t)
    case PreparedRetireCalled(environment, actions, _) => InSlot(environment, t) + InSlot(actions, t)
    case ActiveRetireCalled(active, actions, interpretation, source, _, ingress, settlements, _) =>
      InSlot(active, t) + InSlot(actions, t) + InSlot(interpretation, t) + InSource(source, t)
      + InIngress(ingress, t) + InInput(settlements, t)
  }

  /** What enters Driver custody at an event: the contents of the returned slots, replies,
      errors and panic payloads. */
  function Taken(e: Event, t: Token): nat {
    match e
    case Initialized(reply) => InFold(reply, t)
    case ActivateCalled(_, _, _, reply) =>
      InSlot(reply.environment, t) + InSlot(reply.actions, t) + InActivation(reply.activation, t) + InFailures(reply.run, t)
    case StatusRead(_, _, Classified(_)) => 0
    case StatusRead(_, _, ClassifierPanicked(payload)) => One(payload == t)
    case OfferCalled(called, _, _, left, custody, ran, disposal) =>
      (if called then InSlot(left, t) + InSource(custody, t) + InSeq(ran.failures, t) else 0)
      + (if Discharges(e) then InSlot(disposal, t) else 0)
    case EventRequested(_, got) => InIngress(got.slot, t) + InSeq(got.failures, t)
    case Folded(_, reply) => InFold(reply, t)
    case PublishCalled(Published) => 0
    case PublishCalled(Withheld(request)) => One(request == t)
    case PublishCalled(PublishPanicked(payload)) => One(payload == t)
    case ApplyCalled(_, _, reply) =>
      InSlot(reply.actions, t) + InSlot(reply.interpretation, t) + InFailures(reply.run, t)
    case PreparedRetireCalled(_, _, reply) =>
      InSlot(reply.environment, t) + InSlot(reply.actions, t) + InSlot(reply.residual, t) + InFailures(reply.run, t)
    case ActiveRetireCalled(_, _, _, _, _, _, _, reply) =>
      InSlot(reply.active, t) + InSlot(reply.actions, t) + InSlot(reply.interpretation, t) + InSource(reply.source, t)
      + InIngress(reply.ingress, t) + InInput(reply.settlements, t) + InSlot(reply.residual, t) + InFailures(reply.run, t)
  }

  function AllGiven(events: seq<Event>, t: Token): nat {
    if events == [] then 0 else Given(events[0], t) + AllGiven(events[1..], t)
  }

  function AllTaken(events: seq<Event>, t: Token): nat {
    if events == [] then 0 else Taken(events[0], t) + AllTaken(events[1..], t)
  }

  lemma {:induction false} AllAppend(a: seq<Event>, b: seq<Event>, t: Token)
    ensures AllGiven(a + b, t) == AllGiven(a, t) + AllGiven(b, t)
    ensures AllTaken(a + b, t) == AllTaken(a, t) + AllTaken(b, t)
  {
    if a == [] {
      assert a + b == b;
    } else {
      assert (a + b)[1..] == a[1..] + b;
      AllAppend(a[1..], b, t);
    }
  }

  lemma AllOne(e: Event, t: Token)
    ensures AllGiven([e], t) == Given(e, t) && AllTaken([e], t) == Taken(e, t)
  {
    assert [e][1..] == [];
  }

  /** The books balance over one stretch of the loop, `lost` copies being dropped silently. */
  ghost predicate Balanced(d: DriverState, p: Progress, t: Token, lost: nat) {
    Held(p.driver, t) + AllGiven(p.events, t) + lost == Held(d, t) + AllTaken(p.events, t)
  }

  // ------------------------------------------------------- rows and failures

  lemma {:induction false} InCustodiesSplit(a: seq<Custody>, b: seq<Custody>, t: Token)
    ensures InCustodies(a + b, t) == InCustodies(a, t) + InCustodies(b, t)
  {
    if a == [] {
      assert a + b == b;
    } else {
      assert (a + b)[1..] == a[1..] + b;
      InCustodiesSplit(a[1..], b, t);
    }
  }

  lemma InsertHolds(rows: seq<SettlementTurn>, index: nat, row: SettlementTurn, t: Token)
    ensures InCustodies(Custodies(Insert(rows, index, row)), t)
         == InCustodies(Custodies(rows), t) + One(row.settlement.token == t)
  {
    var i := if index <= |rows| then index else |rows|;
    var all := Custodies(rows);
    assert Custodies(Insert(rows, index, row)) == all[..i] + ([row.settlement] + all[i..]);
    assert all == all[..i] + all[i..];
    InCustodiesSplit(all[..i], all[i..], t);
    InCustodiesSplit(all[..i], [row.settlement] + all[i..], t);
    assert ([row.settlement] + all[i..])[1..] == all[i..];
  }

  lemma RemoveHolds(rows: seq<SettlementTurn>, index: nat, t: Token)
    requires index < |rows|
    ensures InCustodies(Custodies(rows), t)
         == InCustodies(Custodies(Remove(rows, index)), t) + One(rows[index].settlement.token == t)
  {
    assert rows == Insert(Remove(rows, index), index, rows[index]);
    InsertHolds(Remove(rows, index), index, rows[index], t);
  }

  lemma {:induction false} InErrorsSplit(a: seq<DriverError>, b: seq<DriverError>, t: Token)
    ensures InErrors(a + b, t) == InErrors(a, t) + InErrors(b, t)
  {
    if a == [] {
      assert a + b == b;
    } else {
      assert (a + b)[1..] == a[1..] + b;
      InErrorsSplit(a[1..], b, t);
    }
  }

  lemma {:induction false} PanicsHold(payloads: seq<Token>, t: Token)
    ensures InErrors(HostPanics(payloads), t) == InSeq(payloads, t)
    ensures InErrors(ActivationPanics(payloads), t) == InSeq(payloads, t)
    ensures InErrors(RetirementPanics(payloads), t) == InSeq(payloads, t)
  {
    if payloads != [] {
      assert HostPanics(payloads)[1..] == HostPanics(payloads[1..]);
      assert ActivationPanics(payloads)[1..] == ActivationPanics(payloads[1..]);
      assert RetirementPanics(payloads)[1..] == RetirementPanics(payloads[1..]);
      PanicsHold(payloads[1..], t);
    }
  }

  lemma RejectHolds(d: DriverState, error: DriverError, t: Token)
    ensures Held(Reject(d, error), t) == Held(d, t) + InError(error, t)
  {
    InErrorsSplit(d.additionalFailures, [error], t);
    assert InErrors([error], t) == InError(error, t);
  }

  lemma RejectAllHolds(d: DriverState, errors: seq<DriverError>, t: Token)
    ensures Held(RejectAll(d, errors), t) == Held(d, t) + InErrors(errors, t)
  {
    if errors != [] {
      InErrorsSplit(d.additionalFailures, if d.disposition.None? then errors[1..] else errors, t);
    }
  }

  // ------------------------------------------------------------ one turn

  lemma InitializeBalances(d: DriverState, r: Round, t: Token)
    requires Inv(d) && d.phase.Prepared?
    ensures Balanced(d, Initialize(d, r), t, 0)
  {
    AllOne(Initialized(r.fold), t);
  }

  lemma ContractHolds(d: DriverState, errors: seq<DriverError>, t: Token)
    ensures Held(Reject(RejectAll(d, errors), InterpreterContractFailed), t) == Held(RejectAll(d, errors), t)
  {
    RejectHolds(RejectAll(d, errors), InterpreterContractFailed, t);
  }

  lemma EstablishedHolds(d: DriverState, owner: Token, interpretation: Token, t: Token)
    requires d.active.None? && d.interpretation.None? && d.activation == Some(Established(owner, interpretation))
    ensures Held(d.(activation := None, active := Some(owner), interpretation := Some(interpretation), phase := Initializing), t)
         == Held(d, t)
  {
  }

  lemma RefusedHolds(d: DriverState, error: Token, residual: Token, t: Token)
    requires d.residual.None? && d.activation == Some(Refused(error, residual))
    ensures Held(Reject(d.(activation := None, residual := Some(residual)), Activation(error)), t) == Held(d, t)
  {
    RejectHolds(d.(activation := None, residual := Some(residual)), Activation(error), t);
  }

  lemma ActivationHolds(d: DriverState, failures: seq<Token>, t: Token)
    requires d.active.None? && d.interpretation.None? && d.residual.None? && d.activation.Some?
    ensures Held(ResolveActivation(d, failures), t) == Held(d, t) + InSeq(failures, t)
  {
    PanicsHold(failures, t);
    var d1 := d.(activation := None);
    match d.activation.value
    case Established(owner, interpretation) =>
      EstablishedHolds(d, owner, interpretation, t);
      RejectAllHolds(d1.(active := Some(owner), interpretation := Some(interpretation), phase := Initializing),
                     ActivationPanics(failures), t);
    case Refused(error, residual) =>
      RefusedHolds(d, error, residual, t);
      RejectAllHolds(Reject(d1.(residual := Some(residual)), Activation(error)), ActivationPanics(failures), t);
  }

  lemma ActivateLoan(d: DriverState, r: Round, t: Token)
    ensures var reply := r.activate;
      Held(d.(environment := reply.environment, actions := reply.actions, activation := reply.activation), t)
      + InSlot(d.environment, t) + InSlot(d.actions, t) + InActivation(d.activation, t)
      == Held(d, t) + InSlot(reply.environment, t) + InSlot(reply.actions, t) + InActivation(reply.activation, t)
  {
  }

  lemma ActivateBalances(d: DriverState, r: Round, t: Token)
    requires Inv(d) && d.phase.Activating?
    ensures Balanced(d, Activate(d, r), t, 0)
  {
    var ran := Receive(r.activate.run, None);
    AllOne(Activate(d, r).events[0], t);
    PanicsHold(ran.failures, t);
    ActivateLoan(d, r, t);
    var d1 := d.(environment := r.activate.environment, actions := r.activate.actions, activation := r.activate.activation);
    var d' := Activate(d, r).driver;
    assert Held(d', t) == Held(d1, t) + InSeq(ran.failures, t) by {
      RejectAllHolds(d1, ActivationPanics(ran.failures), t);
      ContractHolds(d1, ActivationPanics(ran.failures), t);
      if d1.activation.Some? {
        ActivationHolds(d1, ran.failures, t);
      }
    }
  }

  lemma EnqueueHolds(d: DriverState, t: Token)
    requires d.interpretation.Some?
    ensures Held(Enqueue(d), t) == Held(d, t) && Enqueue(d).disposition == d.disposition
  {
    var row := Offer(Custody(d.interpretation.value, d.received));
    assert [row] + d.settlements == Insert(d.settlements, 0, row);
    InsertHolds(d.settlements, 0, row, t);
  }

  lemma PhaseHolds(d: DriverState, phase: Phase, t: Token)
    ensures Held(d.(phase := phase), t) == Held(d, t)
  {
  }

  lemma CompleteHolds(d: DriverState, completion: Completion, t: Token)
    requires d.disposition.None? && !completion.RetirementRequested?
    ensures Held(Complete(d, completion), t) == Held(d, t)
  {
  }

  lemma JudgeHolds(d: DriverState, status: SettlementStatus, decision: Option<Decision>, t: Token)
    requires d.disposition.None?
    ensures Held(Judge(d, status, decision), t) == Held(d, t)
  {
    if status.CorruptStatus? {
      RejectHolds(d, Settlement(Corrupt), t);
    } else if status.RejectedStatus? && d.phase.Initializing? {
      RejectHolds(d, Settlement(Rejected), t);
    } else {
      match decision
      case Some(Stop) => CompleteHolds(d, Stopped, t);
      case Some(Continue) => PhaseHolds(d, SettlingInitialization, t);
      case None => RejectHolds(d, InterpreterContractFailed, t);
    }
  }

  lemma ClassifyBalances(d: DriverState, r: Round, t: Token)
    requires Inv(d) && Running(d) && d.interpretation.Some?
    ensures Balanced(d, Classify(d, r), t, 0)
  {
    AllOne(Classify(d, r).events[0], t);
    match r.status
    case ClassifierPanicked(payload) => RejectHolds(d, HostExecutionPanicked(payload), t);
    case Classified(status) =>
      EnqueueHolds(d, t);
      JudgeHolds(Enqueue(d), status, d.decision, t);
  }

  lemma PutBackHolds(d: DriverState, index: nat, row: SettlementTurn, failures: seq<Token>, t: Token)
    ensures Held(RejectAll(d.(settlements := Insert(d.settlements, index, row)), HostPanics(failures)), t)
         == Held(d, t) + One(row.settlement.token == t) + InSeq(failures, t)
  {
    InsertHolds(d.settlements, index, row, t);
    PanicsHold(failures, t);
    RejectAllHolds(d.(settlements := Insert(d.settlements, index, row)), HostPanics(failures), t);
  }

  lemma ResolveOfferBalances(d: DriverState, failures: seq<Token>, disposal: Option<Token>, t: Token)
    requires d.sourceIndex.Some? && d.sourceReceived.Some?
    ensures var discharged := d.sourceReceived.value.SourceExhausted?;
      Held(ResolveOffer(d, failures, disposal), t) + (if discharged then InSource(d.sourceReceived, t) else 0)
      == Held(d, t) + InSeq(failures, t) + (if discharged then InSlot(disposal, t) else 0)
  {
    var index := d.sourceIndex.value;
    var row := Custody(d.sourceReceived.value.settlement, d.heldTurn);
    var d1 := d.(sourceIndex := None, sourceReceived := None);
    assert Held(d, t) == Held(d1, t) + One(row.token == t);
    match d.sourceReceived.value
    case SourceExhausted(_) =>
      PanicsHold(failures, t);
      RejectAllHolds(d1, HostPanics(failures), t);
      if disposal.Some? {
        RejectHolds(RejectAll(d1, HostPanics(failures)), HostExecutionPanicked(disposal.value), t);
      }
    case SourceRetained(_) => PutBackHolds(d1, index, Retained(row), failures, t);
    case SourceAdmitted(_) => PutBackHolds(d1, index, AwaitSource(row), failures, t);
    case SourceClosing(_) => ClosingHolds(d1, index, Offer(row), failures, t);
  }

  lemma ClosingHolds(d: DriverState, index: nat, row: SettlementTurn, failures: seq<Token>, t: Token)
    ensures var d1 := Reject(d.(settlements := Insert(d.settlements, index, row)), Settlement(SourceClosed));
      Held(RejectAll(d1, HostPanics(failures)), t) == Held(d, t) + One(row.settlement.token == t) + InSeq(failures, t)
  {
    InsertHolds(d.settlements, index, row, t);
    PanicsHold(failures, t);
    var d1 := d.(settlements := Insert(d.settlements, index, row));
    RejectHolds(d1, Settlement(SourceClosed), t);
    RejectAllHolds(Reject(d1, Settlement(SourceClosed)), HostPanics(failures), t);
  }

  lemma OfferLoan(d: DriverState, r: Round, t: Token)
    requires d.sourceReceived.None?
    ensures var reply := r.offer;
      var input := if reply.input.Some? then Some(Custody(reply.input.value, d.heldTurn)) else None;
      Held(d.(sourceInput := input, sourceReceived := reply.received), t) + InCustody(d.sourceInput, t)
      == Held(d, t) + InSlot(reply.input, t) + InSource(reply.received, t)
  {
  }

  lemma OfferSettles(d: DriverState, ran: Receipt<()>, disposal: Option<Token>, t: Token)
    requires d.sourceIndex.Some? && !ran.abandoned
    ensures d.sourceInput.Some? || d.sourceReceived.None? ==>
      var d2 := RejectAll(d, HostPanics(ran.failures));
      Held(if d2.phase.Retiring? then d2 else Reject(d2, InterpreterContractFailed), t) == Held(d, t) + InSeq(ran.failures, t)
    ensures d.sourceReceived.Some? ==>
      var discharged := d.sourceReceived.value.SourceExhausted?;
      Held(ResolveOffer(d, ran.failures, disposal), t) + (if discharged then InSource(d.sourceReceived, t) else 0)
      == Held(d, t) + InSeq(ran.failures, t) + (if discharged then InSlot(disposal, t) else 0)
  {
    PanicsHold(ran.failures, t);
    RejectAllHolds(d, HostPanics(ran.failures), t);
    ContractHolds(d, HostPanics(ran.failures), t);
    if d.sourceReceived.Some? {
      ResolveOfferBalances(d, ran.failures, disposal, t);
    }
  }

  lemma OfferHeldBalances(d: DriverState, r: Round, t: Token)
    requires d.sourceIndex.Some?
    ensures Balanced(d, OfferHeld(d, r), t, 0)
  {
    var e := OfferHeld(d, r).events[0];
    AllOne(e, t);
    if d.sourceReceived.None? {
      OfferLoan(d, r, t);
      var ran := Receive(r.offer.run, None);
      if !ran.abandoned {
        OfferSettles(d.(sourceInput := if r.offer.input.Some? then Some(Custody(r.offer.input.value, d.heldTurn)) else None,
                        sourceReceived := r.offer.received), ran, r.disposal, t);
      }
    } else {
      OfferSettles(d, Receipt(None, [], false), r.disposal, t);
    }
  }

  lemma ApplyBalances(d: DriverState, r: Round, t: Token)
    requires d.actions.Some? && d.active.Some?
    ensures Balanced(d, Apply(d, r), t, 0)
  {
    var ran := Receive(r.apply.run, None);
    var d1 := d.(actions := r.apply.actions, interpretation := r.apply.interpretation);
    AllOne(Apply(d, r).events[0], t);
    assert Held(d1, t) + InSlot(d.actions, t) + InSlot(d.interpretation, t)
        == Held(d, t) + InSlot(r.apply.actions, t) + InSlot(r.apply.interpretation, t);
    assert Held(Apply(d, r).driver, t) == Held(d1, t) + InSeq(ran.failures, t) by {
      PanicsHold(ran.failures, t);
      RejectAllHolds(d1, HostPanics(ran.failures), t);
      ContractHolds(d1, HostPanics(ran.failures), t);
    }
  }

  predicate DecidesEvent(e: Event) {
    e.Folded? && e.reply.Decided?
  }

  predicate Decides(events: seq<Event>) {
    exists i :: 0 <= i < |events| && DecidesEvent(events[i])
  }

  /** An action value still in its slot is overwritten by the next decision. */
  function Overwritten(d: DriverState, events: seq<Event>, t: Token): nat {
    if Decides(events) then InSlot(d.actions, t) else 0
  }

  lemma FoldBalances(d: DriverState, event: Token, r: Round, t: Token)
    requires d.active.Some?
    ensures Held(Fold(d, event, r).driver, t) + AllGiven(Fold(d, event, r).events, t) + (if r.fold.Decided? then InSlot(d.actions, t) else 0)
         == Held(d, t) + One(event == t) + AllTaken(Fold(d, event, r).events, t)
  {
    AllOne(Folded(event, r.fold), t);
    match r.fold
    case Erred(error) => RejectHolds(d, Behavior(error), t);
    case FoldPanicked(payload) => RejectHolds(d, TransitionPanicked(payload), t);
    case Decided(actions, decision) =>
      var d1 := d.(decision := Some(decision), actions := Some(actions));
      ApplyBalances(d1, r, t);
      AllAppend([Folded(event, r.fold)], Apply(d1, r).events, t);
  }

  lemma FoldDecides(d: DriverState, event: Token, r: Round, control: bool, got: Receipt<Ingress>)
    requires d.active.Some?
    ensures Decides([EventRequested(control, got)] + Fold(d, event, r).events) <==> r.fold.Decided?
  {
    var events := [EventRequested(control, got)] + Fold(d, event, r).events;
    assert events[1] == Folded(event, r.fold);
  }

  lemma FoldIngressBalances(d: DriverState, control: bool, got: Receipt<Ingress>, r: Round, t: Token)
    requires d.active.Some? && d.disposition.None? && d.ingress.Some?
    ensures var p := FoldIngress(d, r);
      Held(p.driver, t) + AllGiven(p.events, t) + Overwritten(d, [EventRequested(control, got)] + p.events, t)
      == Held(d, t) + AllTaken(p.events, t)
  {
    var d1 := d.(ingress := None);
    match d.ingress.value
    case Proceed(Some(event)) =>
      FoldBalances(d1, event, r, t);
      FoldDecides(d1, event, r, control, got);
    case Proceed(None) =>
    case Leave(_) =>
  }

  /** Whether the acquired reply is taken out of its slot by this turn. */
  predicate Folds(control: bool, got: Receipt<Ingress>) {
    !got.abandoned && got.slot.Some? && got.failures == [] && !(control && got.slot == Some(Proceed(None)))
  }

  lemma AcquireSplits(d: DriverState, control: bool, r: Round)
    requires Inv(d) && Running(d)
    ensures var p := if control then AcquireControl(d, r) else AcquireOrdinary(d, r);
      var got := Receive(r.ingress, d.ingress);
      var d1 := d.(ingress := got.slot);
      if Folds(control, got) then
        p == Progress(FoldIngress(d1, r).driver, [EventRequested(control, got)] + FoldIngress(d1, r).events)
      else
        p == Progress(RejectAll(if control && got.slot == Some(Proceed(None))
                                then Reject(d1.(ingress := None), Settlement(SourceClosed)) else d1,
                                HostPanics(got.failures)),
                      [EventRequested(control, got)])
  {
  }

  lemma AcquireFails(d: DriverState, closing: bool, failures: seq<Token>, t: Token)
    requires closing ==> d.ingress == Some(Proceed(None))
    ensures Held(RejectAll(if closing then Reject(d.(ingress := None), Settlement(SourceClosed)) else d, HostPanics(failures)), t)
         == Held(d, t) + InSeq(failures, t)
  {
    PanicsHold(failures, t);
    RejectHolds(d.(ingress := None), Settlement(SourceClosed), t);
    RejectAllHolds(if closing then Reject(d.(ingress := None), Settlement(SourceClosed)) else d, HostPanics(failures), t);
  }

  lemma AcquireBalances(d: DriverState, control: bool, r: Round, t: Token)
    requires Inv(d) && Running(d)
    ensures var p := if control then AcquireControl(d, r) else AcquireOrdinary(d, r);
      Balanced(d, p, t, Overwritten(d, p.events, t))
  {
    var got := Receive(r.ingress, d.ingress);
    var d1 := d.(ingress := got.slot);
    var asked := EventRequested(control, got);
    AcquireSplits(d, control, r);
    AllOne(asked, t);
    assert Held(d1, t) == Held(d, t) + InIngress(got.slot, t);
    if Folds(control, got) {
      FoldIngressBalances(d1, control, got, r, t);
      AllAppend([asked], FoldIngress(d1, r).events, t);
    } else {
      AcquireFails(d1, control && got.slot == Some(Proceed(None)), got.failures, t);
    }
  }

  lemma PublishBalances(d: DriverState, r: Round, t: Token)
    requires d.disposition.None?
    ensures Balanced(d, Publish(d, r), t, Overwritten(d, Publish(d, r).events, t))
  {
    AllOne(PublishCalled(r.publish), t);
    match r.publish
    case PublishPanicked(payload) => RejectHolds(d, HostExecutionPanicked(payload), t);
    case _ =>
  }

  lemma HoldHolds(d: DriverState, index: nat, t: Token)
    requires index < |d.settlements| && d.sourceInput.None?
    ensures Held(Hold(d, index), t) == Held(d, t) && Hold(d, index).actions == d.actions
  {
    RemoveHolds(d.settlements, index, t);
  }

  lemma AwaitingHolds(d: DriverState, index: nat, t: Token)
    requires index < |d.settlements|
    ensures var row := Offer(d.settlements[index].settlement);
      Held(d.(settlements := Insert(Remove(d.settlements, index), index, row)), t) == Held(d, t)
  {
    RemoveHolds(d.settlements, index, t);
    InsertHolds(Remove(d.settlements, index), index, Offer(d.settlements[index].settlement), t);
  }

  lemma SelectRowBalances(d: DriverState, index: nat, r: Round, t: Token)
    requires Inv(d) && Running(d) && !d.phase.Initializing? && d.interpretation.None? && d.sourceIndex.None?
    requires NextRow(d.settlements) == Some(index)
    ensures Balanced(d, SelectRow(d, index, r), t, Overwritten(d, SelectRow(d, index, r).events, t))
  {
    RemoveKeepsOrder(d.settlements, index, d.received);
    if d.settlements[index].Offer? {
      HoldHolds(d, index, t);
      OfferHeldBalances(Hold(d, index), r, t);
    } else {
      var row := Offer(d.settlements[index].settlement);
      InsertKeepsOrder(Remove(d.settlements, index), index, row, d.received);
      AwaitingHolds(d, index, t);
      AcquireBalances(d.(settlements := Insert(Remove(d.settlements, index), index, row)), true, r, t);
    }
  }

  lemma SelectBalances(d: DriverState, r: Round, t: Token)
    requires Inv(d) && Running(d) && !d.phase.Initializing? && d.interpretation.None?
    ensures Balanced(d, Select(d, r), t, Overwritten(d, Select(d, r).events, t))
  {
    if d.sourceIndex.Some? {
      OfferHeldBalances(d, r, t);
    } else {
      match NextRow(d.settlements)
      case None =>
        if d.phase.SettlingInitialization? {
          PublishBalances(d, r, t);
        } else {
          AcquireBalances(d, false, r, t);
        }
      case Some(index) => SelectRowBalances(d, index, r, t);
    }
  }

  lemma TurnBalances(d: DriverState, r: Round, t: Token)
    requires Inv(d) && Running(d)
    ensures Balanced(d, Turn(d, r), t, Overwritten(d, Turn(d, r).events, t))
  {
    if d.interpretation.None? {
      SelectBalances(d, r, t);
    } else {
      ClassifyBalances(d, r, t);
      ClassifyKeepsInv(d, r);
      var d1 := Classify(d, r).driver;
      if !d1.phase.Retiring? {
        ClassifyOffers(d, r);
        SelectBalances(d1, r, t);
        AllAppend(Classify(d, r).events, Select(d1, r).events, t);
      }
    }
  }

  lemma GatherHolds(d: DriverState, t: Token)
    ensures Held(GatherSettlements(d), t) == Held(d, t)
    ensures GatherSettlements(d).additionalFailures == d.additionalFailures
  {
    if d.sourceInput.Some? && d.sourceIndex.Some? {
      InsertHolds(d.settlements, d.sourceIndex.value, Retained(d.sourceInput.value), t);
    }
  }

  lemma MoreFailuresHold(d: DriverState, failures: seq<Token>, t: Token)
    ensures Held(WithRetirementPanics(d, failures), t) == Held(d, t) + InSeq(failures, t)
  {
    PanicsHold(failures, t);
    InErrorsSplit(d.additionalFailures, RetirementPanics(failures), t);
  }

  lemma PreparedLoan(d: DriverState, reply: PreparedRetireReply, t: Token)
    requires d.residual.None?
    ensures Held(AfterPrepared(d, reply), t) + InSlot(d.environment, t) + InSlot(d.actions, t)
         == Held(d, t) + InSlot(reply.environment, t) + InSlot(reply.actions, t) + InSlot(reply.residual, t)
  {
  }

  lemma ActiveLoan(d: DriverState, reply: ActiveRetireReply, t: Token)
    requires d.residual.None?
    ensures Held(AfterActive(d, reply), t)
         + InSlot(d.active, t) + InSlot(d.actions, t) + InSlot(d.interpretation, t) + InSource(d.sourceReceived, t)
         + InIngress(d.ingress, t) + InInput(d.retirementInput, t)
         == Held(d, t)
         + InSlot(reply.active, t) + InSlot(reply.actions, t) + InSlot(reply.interpretation, t) + InSource(reply.source, t)
         + InIngress(reply.ingress, t) + InInput(reply.settlements, t) + InSlot(reply.residual, t)
  {
  }

  lemma PreparedBalances(d: DriverState, reply: PreparedRetireReply, t: Token)
    requires d.residual.None?
    ensures Balanced(d, RetirePrepared(d, reply), t, 0)
  {
    AllOne(RetirePrepared(d, reply).events[0], t);
    PreparedLoan(d, reply, t);
    MoreFailuresHold(AfterPrepared(d, reply), Receive(reply.run, None).failures, t);
  }

  lemma ActiveBalances(d: DriverState, reply: ActiveRetireReply, t: Token)
    requires d.residual.None?
    ensures Balanced(d, RetireActive(d, reply), t, 0)
  {
    AllOne(RetireActive(d, reply).events[0], t);
    ActiveLoan(d, reply, t);
    MoreFailuresHold(AfterActive(d, reply), Receive(reply.run, None).failures, t);
  }

  lemma RetireBalances(d: DriverState, r: Round, t: Token)
    requires Inv(d) && d.phase.Retiring?
    ensures Balanced(d, Retire(d, r), t, 0)
  {
    if !(d.sourceInput.Some? && d.sourceReceived.Some?) {
      var d1 := GatherSettlements(d);
      GatherHolds(d, t);
      if d1.residual.None? {
        PreparedBalances(d1, r.retirePrepared, t);
        ActiveBalances(d1, r.retireActive, t);
      }
    }
  }

  lemma StepBalances(d: DriverState, r: Round, t: Token)
    requires Inv(d)
    ensures Balanced(d, Step(d, r), t, Overwritten(d, Step(d, r).events, t))
  {
    match d.phase
    case Prepared => InitializeBalances(d, r, t);
    case Activating => ActivateBalances(d, r, t);
    case Retiring =>
      RetireBalances(d, r, t);
      StepShape(d, r);
    case RetirementAttempted =>
    case _ => TurnBalances(d, r, t);
  }

  // ------------------------------------------------------------- whole runs

  /** The turn decides while an earlier decision's actions still sit in their slot. That is
      possible only after a loan was dropped inside `apply`. */
  predicate ForgetsActions(d: DriverState, r: Round) {
    d.actions.Some? && Decides(Step(d, r).events)
  }

  /** No turn of the run decides over waiting actions. */
  ghost predicate NeverForgets(d: DriverState, rounds: seq<Round>)
    decreases |rounds|
  {
    rounds == [] || (!ForgetsActions(d, rounds[0]) && NeverForgets(Step(d, rounds[0]).driver, rounds[1..]))
  }

  function Forgotten(d: DriverState, rounds: seq<Round>, t: Token): nat
    decreases |rounds|
  {
    if rounds == [] then 0
    else
      var first := Step(d, rounds[0]);
      Overwritten(d, first.events, t) + Forgotten(first.driver, rounds[1..], t)
  }

  lemma {:induction false} RunBalances(d: DriverState, rounds: seq<Round>, t: Token)
    requires Inv(d)
    ensures Balanced(d, Run(d, rounds), t, Forgotten(d, rounds, t))
    decreases |rounds|
  {
    if rounds != [] {
      var first := Step(d, rounds[0]);
      StepBalances(d, rounds[0], t);
      StepKeepsInv(d, rounds[0]);
      RunBalances(first.driver, rounds[1..], t);
      AllAppend(first.events, Run(first.driver, rounds[1..]).events, t);
    }
  }

  lemma {:induction false} NothingForgotten(d: DriverState, rounds: seq<Round>, t: Token)
    requires NeverForgets(d, rounds)
    ensures Forgotten(d, rounds, t) == 0
    decreases |rounds|
  {
    if rounds != [] {
      NothingForgotten(Step(d, rounds[0]).driver, rounds[1..], t);
    }
  }

  lemma {:induction false} SomethingForgotten(d: DriverState, rounds: seq<Round>) returns (t: Token)
    requires !NeverForgets(d, rounds)
    ensures Forgotten(d, rounds, t) > 0
    decreases |rounds|
  {
    if ForgetsActions(d, rounds[0]) {
      t := d.actions.value;
    } else {
      t := SomethingForgotten(Step(d, rounds[0]).driver, rounds[1..]);
    }
  }

  /** For any Behavior, host and dropped loans: every value ever received is still held,
      lent out or surrendered, exactly when no turn decides over waiting actions. */
  lemma RunConservesIff(d: DriverState, rounds: seq<Round>)
    requires Inv(d)
    ensures (forall t: Token :: Balanced(d, Run(d, rounds), t, 0)) <==> NeverForgets(d, rounds)
  {
    if NeverForgets(d, rounds) {
      forall t: Token ensures Balanced(d, Run(d, rounds), t, 0) {
        RunBalances(d, rounds, t);
        NothingForgotten(d, rounds, t);
      }
    } else {
      var t := SomethingForgotten(d, rounds);
      RunBalances(d, rounds, t);
      assert !Balanced(d, Run(d, rounds), t, 0);
    }
  }

  // -------------------------------------------------- when nothing is forgotten

  /** The loan is not dropped while `apply` is pending. */
  predicate ApplyFinishes(r: Round) {
    !Receive(r.apply.run, None).abandoned
  }

  lemma OfferTouchesNoActions(d: DriverState, r: Round)
    requires d.sourceIndex.Some?
    ensures OfferHeld(d, r).driver.actions == d.actions
  {
  }

  lemma SelectClearsActions(d: DriverState, r: Round)
    requires Inv(d) && Running(d) && !d.phase.Initializing? && d.interpretation.None? && d.actions.None? && ApplyFinishes(r)
    ensures Running(Select(d, r).driver) ==> Select(d, r).driver.actions.None?
  {
    if d.sourceIndex.Some? {
      OfferTouchesNoActions(d, r);
    } else {
      match NextRow(d.settlements)
      case None => AcquireClearsActions(d, r);
      case Some(index) =>
        OfferTouchesNoActions(Hold(d, index), r);
        AcquireClearsActions(d.(settlements := Insert(Remove(d.settlements, index), index, Offer(d.settlements[index].settlement))), r);
    }
  }

  lemma AcquireClearsActions(d: DriverState, r: Round)
    requires d.active.Some? && d.actions.None? && ApplyFinishes(r)
    ensures Running(AcquireControl(d, r).driver) ==> AcquireControl(d, r).driver.actions.None?
    ensures Running(AcquireOrdinary(d, r).driver) ==> AcquireOrdinary(d, r).driver.actions.None?
  {
    var d1 := d.(ingress := Receive(r.ingress, d.ingress).slot);
    assert Running(FoldIngress(d1, r).driver) ==> FoldIngress(d1, r).driver.actions.None?;
  }

  lemma TurnClearsActions(d: DriverState, r: Round)
    requires Inv(d) && Running(d) && ApplyFinishes(r) && d.actions.None?
    ensures Running(Turn(d, r).driver) ==> Turn(d, r).driver.actions.None?
  {
    if d.interpretation.Some? {
      ClassifyKeepsInv(d, r);
      var d1 := Classify(d, r).driver;
      if !d1.phase.Retiring? {
        SelectClearsActions(d1, r);
      }
    } else {
      SelectClearsActions(d, r);
    }
  }

  lemma StepClearsActions(d: DriverState, r: Round)
    requires Inv(d) && ApplyFinishes(r) && (Running(d) ==> d.actions.None?)
    ensures Running(Step(d, r).driver) ==> Step(d, r).driver.actions.None?
    ensures !ForgetsActions(d, r)
  {
    StepShape(d, r);
    if Running(d) {
      TurnClearsActions(d, r);
    }
  }

  /** Loans may be dropped anywhere except inside `apply` without losing a value. */
  lemma {:induction false} FinishedAppliesForgetNothing(d: DriverState, rounds: seq<Round>)
    requires Inv(d) && (Running(d) ==> d.actions.None?)
    requires forall i :: 0 <= i < |rounds| ==> ApplyFinishes(rounds[i])
    ensures NeverForgets(d, rounds)
    decreases |rounds|
  {
    if rounds != [] {
      StepClearsActions(d, rounds[0]);
      StepKeepsInv(d, rounds[0]);
      FinishedAppliesForgetNothing(Step(d, rounds[0]).driver, rounds[1..]);
    }
  }
}
