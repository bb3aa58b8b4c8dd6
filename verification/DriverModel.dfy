/** The Driver as a state machine over values: one function per part of the loop body,
    all of them total, so that hosts which break their contracts are covered as well. */
module DriverModel {
  import opened Basics
  import opened Operations

  datatype Phase =
    Prepared | Activating | Initializing | SettlingInitialization | Active | Retiring | RetirementAttempted

  datatype Decision = Continue | Stop

  datatype Completion = Stopped | Exhausted | RetirementRequested(request: Token)

  datatype SettlementFailure = Rejected | Corrupt | SourceClosed

  datatype DriverError =
    | Behavior(error: Token)
    | InitializationPanicked(payload: Token)
    | TransitionPanicked(payload: Token)
    | HostExecutionPanicked(payload: Token)
    | ActivationPanicked(payload: Token)
    | RetirementPanicked(payload: Token)
    | InterpreterContractFailed
    | Activation(error: Token)
    | Settlement(failure: SettlementFailure)

  /** One terminal fact: a completion or a failure. */
  datatype Cause = Completed(completion: Completion) | Failed(failure: DriverError)

  /** A settlement in Driver custody, stamped with the turn that received it. The stamp is
      a history variable: nothing in the transition functions branches on it. */
  datatype Custody = Custody(token: Token, turn: nat)

  datatype SettlementTurn =
    | Offer(settlement: Custody)
    | AwaitSource(settlement: Custody)
    | Retained(settlement: Custody)

  datatype SourceReply =
    | SourceExhausted(settlement: Token)
    | SourceRetained(settlement: Token)
    | SourceAdmitted(settlement: Token)
    | SourceClosing(settlement: Token)

  datatype Ingress = Proceed(event: Option<Token>) | Leave(request: Token)

  datatype ActivationResult =
    | Established(owner: Token, interpretation: Token)
    | Refused(error: Token, residual: Token)

  datatype DriverState = DriverState(
    behavior: Token,
    environment: Option<Token>,
    active: Option<Token>,
    phase: Phase,
    actions: Option<Token>,
    activation: Option<ActivationResult>,
    interpretation: Option<Token>,
    sourceInput: Option<Custody>,
    sourceReceived: Option<SourceReply>,
    sourceIndex: Option<nat>,
    ingress: Option<Ingress>,
    decision: Option<Decision>,
    settlements: seq<SettlementTurn>,
    retirementInput: Option<seq<Custody>>,
    residual: Option<Token>,
    disposition: Option<Cause>,
    additionalFailures: seq<DriverError>,
    // History variables: settlements received so far, and the stamp of the row held out
    // of the queue while `sourceIndex` is occupied.
    received: nat,
    heldTurn: nat)

  function New(behavior: Token, environment: Token): DriverState {
    DriverState(behavior, Some(environment), None, Prepared, None, None, None, None, None, None,
                None, None, [], None, None, None, [], 0, 0)
  }

  // ---------------------------------------------------------------- replies

  datatype FoldReply = Decided(actions: Token, decision: Decision) | Erred(error: Token) | FoldPanicked(payload: Token)

  datatype SettlementStatus = AcceptedStatus | RejectedStatus | CorruptStatus

  datatype StatusReply = Classified(status: SettlementStatus) | ClassifierPanicked(payload: Token)

  datatype PublishReply = Published | Withheld(request: Token) | PublishPanicked(payload: Token)

  /** The loaned slots as the host leaves them, with the way its future ran. */
  datatype ActivateReply = ActivateReply(
    environment: Option<Token>, actions: Option<Token>, activation: Option<ActivationResult>, run: Operation<()>)

  datatype OfferReply = OfferReply(input: Option<Token>, received: Option<SourceReply>, run: Operation<()>)

  datatype ApplyReply = ApplyReply(actions: Option<Token>, interpretation: Option<Token>, run: Operation<()>)

  datatype PreparedRetireReply = PreparedRetireReply(
    environment: Option<Token>, actions: Option<Token>, residual: Option<Token>, run: Operation<()>)

  datatype ActiveRetireReply = ActiveRetireReply(
    active: Option<Token>, actions: Option<Token>, interpretation: Option<Token>,
    source: Option<SourceReply>, index: Option<nat>, ingress: Option<Ingress>,
    settlements: Option<seq<Custody>>, residual: Option<Token>, run: Operation<()>)

  /** Everything the Behavior and the host may answer during one turn of the loop. A turn
      uses the answers to the calls it makes; a sequence of rounds is a finite run of any
      Behavior against any host, panicking and contract-breaking ones included. */
  datatype Round = Round(
    fold: FoldReply,
    activate: ActivateReply,
    status: StatusReply,
    offer: OfferReply,
    disposal: Option<Token>,
    ingress: Operation<Ingress>,
    publish: PublishReply,
    apply: ApplyReply,
    retirePrepared: PreparedRetireReply,
    retireActive: ActiveRetireReply)

  // ----------------------------------------------------------------- events

  /** What the Driver does to the outside, with the facts lent and received. */
  datatype Event =
    | Initialized(reply: FoldReply)
    | ActivateCalled(environment: Option<Token>, actions: Option<Token>, activation: Option<ActivationResult>,
                     activated: ActivateReply)
    | StatusRead(initializing: bool, decided: Option<Decision>, status: StatusReply)
    | OfferCalled(called: bool, turn: nat, lent: Option<Token>, left: Option<Token>,
                  custody: Option<SourceReply>, ran: Receipt<()>, disposal: Option<Token>)
    | EventRequested(control: bool, acquired: Receipt<Ingress>)
    | Folded(event: Token, reply: FoldReply)
    | PublishCalled(publication: PublishReply)
    | ApplyCalled(lentActions: Token, lentInterpretation: Option<Token>, applied: ApplyReply)
    | PreparedRetireCalled(environment: Option<Token>, actions: Option<Token>, prepared: PreparedRetireReply)
    | ActiveRetireCalled(active: Option<Token>, actions: Option<Token>, interpretation: Option<Token>,
                         source: Option<SourceReply>, index: Option<nat>, ingress: Option<Ingress>,
                         settlements: Option<seq<Custody>>, retired: ActiveRetireReply)

  /** A state together with the events that led to it. */
  datatype Progress = Progress(driver: DriverState, events: seq<Event>)

  // ------------------------------------------------------------ cause custody

  function Reject(d: DriverState, error: DriverError): DriverState {
    if d.disposition.None? then d.(disposition := Some(Failed(error)), phase := Retiring)
    else d.(additionalFailures := d.additionalFailures + [error], phase := Retiring)
  }

  function Complete(d: DriverState, completion: Completion): DriverState {
    if d.disposition.None? then d.(disposition := Some(Completed(completion)), phase := Retiring)
    else d.(phase := Retiring)
  }

  /** Rejecting a list of errors one by one, in closed form. */
  function RejectAll(d: DriverState, errors: seq<DriverError>): DriverState {
    if errors == [] then d
    else if d.disposition.None? then
      d.(disposition := Some(Failed(errors[0])),
         additionalFailures := d.additionalFailures + errors[1..], phase := Retiring)
    else d.(additionalFailures := d.additionalFailures + errors, phase := Retiring)
  }

  function ActivationPanics(payloads: seq<Token>): seq<DriverError> {
    seq(|payloads|, i requires 0 <= i < |payloads| => ActivationPanicked(payloads[i]))
  }

  function HostPanics(payloads: seq<Token>): seq<DriverError> {
    seq(|payloads|, i requires 0 <= i < |payloads| => HostExecutionPanicked(payloads[i]))
  }

  function RetirementPanics(payloads: seq<Token>): seq<DriverError> {
    seq(|payloads|, i requires 0 <= i < |payloads| => RetirementPanicked(payloads[i]))
  }

  // -------------------------------------------------------------- queue rows

  /** The position of the first row that can still progress. */
  function NextRow(rows: seq<SettlementTurn>): (index: Option<nat>)
    ensures index.Some? ==>
      && index.value < |rows|
      && !rows[index.value].Retained?
      && forall i :: 0 <= i < index.value ==> rows[i].Retained?
    ensures index.None? ==> forall i :: 0 <= i < |rows| ==> rows[i].Retained?
  {
    if rows == [] then None
    else if !rows[0].Retained? then Some(0)
    else match NextRow(rows[1..])
      case None => None
      case Some(i) => Some(i + 1)
  }

  /** Insertion at an index. The modelled program panics when the index is past the end;
      `DriverInvariant.HeldRowIsInRange` shows that it never is. */
  function Insert<T>(rows: seq<T>, index: nat, row: T): seq<T> {
    if index <= |rows| then rows[..index] + [row] + rows[index..] else rows + [row]
  }

  function Remove<T>(rows: seq<T>, index: nat): seq<T>
    requires index < |rows|
  {
    rows[..index] + rows[index + 1..]
  }

  function Custodies(rows: seq<SettlementTurn>): seq<Custody> {
    seq(|rows|, i requires 0 <= i < |rows| => rows[i].settlement)
  }

  // -------------------------------------------------------------- loop body

  function Initialize(d: DriverState, r: Round): Progress {
    var d1 := d.(phase := Activating);
    Progress(
      match r.fold
      case Decided(actions, decision) => d1.(decision := Some(decision), actions := Some(actions))
      case Erred(error) => Reject(d1, Behavior(error))
      case FoldPanicked(payload) => Reject(d1, InitializationPanicked(payload)),
      [Initialized(r.fold)])
  }

  function Activate(d: DriverState, r: Round): Progress {
    var ran := Receive(r.activate.run, None);
    var d1 := d.(environment := r.activate.environment, actions := r.activate.actions, activation := r.activate.activation);
    Progress(
      if ran.abandoned then d1
      else if d1.environment.Some? || d1.actions.Some? || d1.activation.None? then
        var d2 := RejectAll(d1, ActivationPanics(ran.failures));
        if d2.phase.Retiring? then d2 else Reject(d2, InterpreterContractFailed)
      else ResolveActivation(d1, ran.failures),
      [ActivateCalled(d.environment, d.actions, d.activation, r.activate)])
  }

  function ResolveActivation(d: DriverState, failures: seq<Token>): DriverState
    requires d.activation.Some?
  {
    RejectAll(TakeActivation(d), ActivationPanics(failures))
  }

  function TakeActivation(d: DriverState): DriverState
    requires d.activation.Some?
  {
    var d1 := d.(activation := None);
    match d.activation.value
    case Established(owner, interpretation) =>
      d1.(active := Some(owner), interpretation := Some(interpretation), phase := Initializing)
    case Refused(error, residual) => Reject(d1.(residual := Some(residual)), Activation(error))
  }

  /** Classification of the acquired interpretation, which then heads the queue. */
  function Classify(d: DriverState, r: Round): Progress
    requires d.interpretation.Some?
  {
    Progress(
      match r.status
      case ClassifierPanicked(payload) => Reject(d, HostExecutionPanicked(payload))
      case Classified(status) => Judge(Enqueue(d), status, d.decision),
      [StatusRead(d.phase.Initializing?, d.decision, r.status)])
  }

  function Enqueue(d: DriverState): DriverState
    requires d.interpretation.Some?
  {
    d.(interpretation := None, decision := None, received := d.received + 1,
       settlements := [Offer(Custody(d.interpretation.value, d.received))] + d.settlements)
  }

  /** The terminal status of a settlement, or the decision waiting for it. */
  function Judge(d: DriverState, status: SettlementStatus, decision: Option<Decision>): DriverState {
    if status.CorruptStatus? then Reject(d, Settlement(Corrupt))
    else if status.RejectedStatus? && d.phase.Initializing? then Reject(d, Settlement(Rejected))
    else match decision
      case Some(Stop) => Complete(d, Stopped)
      case Some(Continue) => if d.phase.Initializing? then d.(phase := SettlingInitialization) else d
      case None => Reject(d, InterpreterContractFailed)
  }

  /** One offer of the held row, or the resolution of a reply acquired earlier. */
  function OfferHeld(d: DriverState, r: Round): Progress
    requires d.sourceIndex.Some?
  {
    var called := d.sourceReceived.None?;
    var ran := if called then Receive(r.offer.run, None) else Receipt(None, [], false);
    var d1 := if !called then d else
      d.(sourceInput := if r.offer.input.Some? then Some(Custody(r.offer.input.value, d.heldTurn)) else None,
         sourceReceived := r.offer.received);
    var lent := if d.sourceInput.Some? then Some(d.sourceInput.value.token) else None;
    var left := if d1.sourceInput.Some? then Some(d1.sourceInput.value.token) else None;
    Progress(
      if ran.abandoned then d1
      else if d1.sourceInput.Some? || d1.sourceReceived.None? then
        var d2 := RejectAll(d1, HostPanics(ran.failures));
        if d2.phase.Retiring? then d2 else Reject(d2, InterpreterContractFailed)
      else ResolveOffer(d1, ran.failures, r.disposal),
      [OfferCalled(called, d.heldTurn, lent, left, d1.sourceReceived, ran, r.disposal)])
  }

  function ResolveOffer(d: DriverState, failures: seq<Token>, disposal: Option<Token>): DriverState
    requires d.sourceIndex.Some? && d.sourceReceived.Some?
  {
    var index := d.sourceIndex.value;
    var row := Custody(d.sourceReceived.value.settlement, d.heldTurn);
    var d1 := d.(sourceIndex := None, sourceReceived := None);
    match d.sourceReceived.value
    case SourceExhausted(_) =>
      var d2 := RejectAll(d1, HostPanics(failures));
      if disposal.Some? then Reject(d2, HostExecutionPanicked(disposal.value)) else d2
    case SourceRetained(_) =>
      RejectAll(d1.(settlements := Insert(d1.settlements, index, Retained(row))), HostPanics(failures))
    case SourceAdmitted(_) =>
      RejectAll(d1.(settlements := Insert(d1.settlements, index, AwaitSource(row))), HostPanics(failures))
    case SourceClosing(_) =>
      RejectAll(Reject(d1.(settlements := Insert(d1.settlements, index, Offer(row))), Settlement(SourceClosed)),
                HostPanics(failures))
  }

  function Publish(d: DriverState, r: Round): Progress {
    Progress(
      match r.publish
      case Published => d.(phase := Active)
      case Withheld(request) => Complete(d, RetirementRequested(request))
      case PublishPanicked(payload) => Reject(d, HostExecutionPanicked(payload)),
      [PublishCalled(r.publish)])
  }

  /** A control event after an admission: source closure with a retained row is a failure. */
  function AcquireControl(d: DriverState, r: Round): Progress {
    var got := Receive(r.ingress, d.ingress);
    var d1 := d.(ingress := got.slot);
    var asked := [EventRequested(true, got)];
    if got.abandoned then Progress(d1, asked)
    else
      var d2 := if d1.ingress == Some(Proceed(None))
                then Reject(d1.(ingress := None), Settlement(SourceClosed)) else d1;
      var d3 := RejectAll(d2, HostPanics(got.failures));
      if d3.phase.Retiring? then Progress(d3, asked)
      else if d3.ingress.None? then Progress(Reject(d3, InterpreterContractFailed), asked)
      else
        var turned := FoldIngress(d3, r);
        Progress(turned.driver, asked + turned.events)
  }

  /** An ordinary event. */
  function AcquireOrdinary(d: DriverState, r: Round): Progress {
    var got := Receive(r.ingress, d.ingress);
    var d1 := d.(ingress := got.slot);
    var asked := [EventRequested(false, got)];
    if got.abandoned then Progress(d1, asked)
    else
      var d2 := RejectAll(d1, HostPanics(got.failures));
      if d2.phase.Retiring? then Progress(d2, asked)
      else
        var turned := FoldIngress(d2, r);
        Progress(turned.driver, asked + turned.events)
  }

  function FoldIngress(d: DriverState, r: Round): Progress {
    var d1 := d.(ingress := None);
    match d.ingress
    case Some(Proceed(Some(event))) => Fold(d1, event, r)
    case Some(Proceed(None)) => Progress(Complete(d1, Exhausted), [])
    case Some(Leave(request)) => Progress(Complete(d1, RetirementRequested(request)), [])
    case None => Progress(Reject(d1, InterpreterContractFailed), [])
  }

  function Fold(d: DriverState, event: Token, r: Round): Progress {
    var folded := [Folded(event, r.fold)];
    match r.fold
    case Erred(error) => Progress(Reject(d, Behavior(error)), folded)
    case FoldPanicked(payload) => Progress(Reject(d, TransitionPanicked(payload)), folded)
    case Decided(actions, decision) =>
      var applied := Apply(d.(decision := Some(decision), actions := Some(actions)), r);
      Progress(applied.driver, folded + applied.events)
  }

  function Apply(d: DriverState, r: Round): Progress
    requires d.actions.Some?
  {
    if d.active.None? then Progress(Reject(d, InterpreterContractFailed), [])
    else
      var ran := Receive(r.apply.run, None);
      var d1 := d.(actions := r.apply.actions, interpretation := r.apply.interpretation);
      var called := [ApplyCalled(d.actions.value, d.interpretation, r.apply)];
      if ran.abandoned then Progress(d1, called)
      else
        var d2 := RejectAll(d1, HostPanics(ran.failures));
        Progress(
          if (d2.actions.Some? || d2.interpretation.None?) && !d2.phase.Retiring?
          then Reject(d2, InterpreterContractFailed) else d2,
          called)
  }

  /** Taking the next row out of the queue; an `Offer` row is then offered at once. */
  function Select(d: DriverState, r: Round): Progress {
    if d.active.None? then Progress(Reject(d, InterpreterContractFailed), [])
    else if d.sourceIndex.Some? then OfferHeld(d, r)
    else match NextRow(d.settlements)
      case Some(index) => SelectRow(d, index, r)
      case None => if d.phase.SettlingInitialization? then Publish(d, r) else AcquireOrdinary(d, r)
  }

  function Hold(d: DriverState, index: nat): DriverState
    requires index < |d.settlements|
  {
    var row := d.settlements[index].settlement;
    d.(sourceIndex := Some(index), sourceInput := Some(row), heldTurn := row.turn,
       settlements := Remove(d.settlements, index))
  }

  function SelectRow(d: DriverState, index: nat, r: Round): Progress
    requires index < |d.settlements| && !d.settlements[index].Retained?
  {
    var row := d.settlements[index].settlement;
    if d.settlements[index].Offer? then OfferHeld(Hold(d, index), r)
    else AcquireControl(d.(settlements := Insert(Remove(d.settlements, index), index, Offer(row))), r)
  }

  function Turn(d: DriverState, r: Round): Progress {
    if d.interpretation.None? then Select(d, r)
    else
      var classified := Classify(d, r);
      if classified.driver.phase.Retiring? then classified
      else
        var selected := Select(classified.driver, r);
        Progress(selected.driver, classified.events + selected.events)
  }

  /** The held input goes back to its place, and the queue becomes the retirement input. */
  function GatherSettlements(d: DriverState): DriverState {
    if d.retirementInput.Some? || d.active.None? then d
    else
      var d1 := if d.sourceInput.Some? && d.sourceIndex.Some? then
        d.(settlements := Insert(d.settlements, d.sourceIndex.value, Retained(d.sourceInput.value)),
           sourceInput := None, sourceIndex := None)
      else d;
      d1.(retirementInput := Some(Custodies(d1.settlements)), settlements := [])
  }

  function WithRetirementPanics(d: DriverState, payloads: seq<Token>): DriverState {
    d.(additionalFailures := d.additionalFailures + RetirementPanics(payloads))
  }

  /** The slots as a prepared retirement leaves them. */
  function AfterPrepared(d: DriverState, reply: PreparedRetireReply): DriverState {
    d.(phase := RetirementAttempted, environment := reply.environment, actions := reply.actions,
       residual := reply.residual)
  }

  function RetirePrepared(d: DriverState, reply: PreparedRetireReply): Progress {
    Progress(WithRetirementPanics(AfterPrepared(d, reply), Receive(reply.run, None).failures),
             [PreparedRetireCalled(d.environment, d.actions, reply)])
  }

  /** The slots as an active retirement leaves them: its owners, then the loaned facts. */
  function AfterActive(d: DriverState, reply: ActiveRetireReply): DriverState {
    LoansAfter(OwnersAfter(d, reply), reply)
  }

  function OwnersAfter(d: DriverState, reply: ActiveRetireReply): DriverState {
    d.(phase := RetirementAttempted, active := reply.active, actions := reply.actions,
       interpretation := reply.interpretation, residual := reply.residual)
  }

  function LoansAfter(d: DriverState, reply: ActiveRetireReply): DriverState {
    d.(sourceReceived := reply.source, sourceIndex := reply.index, ingress := reply.ingress,
       retirementInput := reply.settlements)
  }

  function RetireActive(d: DriverState, reply: ActiveRetireReply): Progress {
    Progress(WithRetirementPanics(AfterActive(d, reply), Receive(reply.run, None).failures),
             [ActiveRetireCalled(d.active, d.actions, d.interpretation, d.sourceReceived, d.sourceIndex,
                                 d.ingress, d.retirementInput, reply)])
  }

  function Retire(d: DriverState, r: Round): Progress {
    if d.sourceInput.Some? && d.sourceReceived.Some? then Progress(d, [])
    else
      var d1 := GatherSettlements(d);
      if d1.environment.Some? && d1.active.None? && d1.residual.None? then RetirePrepared(d1, r.retirePrepared)
      else if d1.environment.None? && d1.active.Some? && d1.residual.None? then RetireActive(d1, r.retireActive)
      else Progress(d1, [])
  }

  function Step(d: DriverState, r: Round): Progress {
    match d.phase
    case Prepared => Initialize(d, r)
    case Activating => Activate(d, r)
    case Initializing => Turn(d, r)
    case SettlingInitialization => Turn(d, r)
    case Active => Turn(d, r)
    case Retiring => Retire(d, r)
    case RetirementAttempted => Progress(d, [])
  }

  /** A run of any length. Once a turn has retired, the loop has returned, and further
      rounds are further receives of the surviving Driver. An abandoned operation is a
      dropped loan, and the next round is the next receive. */
  function Run(d: DriverState, rounds: seq<Round>): Progress
    decreases |rounds|
  {
    if rounds == [] then Progress(d, [])
    else
      var first := Step(d, rounds[0]);
      var rest := Run(first.driver, rounds[1..]);
      Progress(rest.driver, first.events + rest.events)
  }

  /** No loan is dropped while one of the operations of this round is pending. */
  predicate Uninterrupted(r: Round) {
    && !Receive(r.activate.run, None).abandoned
    && !Receive(r.offer.run, None).abandoned
    && !Receive(r.ingress, None).abandoned
    && !Receive(r.apply.run, None).abandoned
    && !Receive(r.retirePrepared.run, None).abandoned
    && !Receive(r.retireActive.run, None).abandoned
  }
}
