/** The application's view of a retired actor: the projection of a local outcome, the second
    route through a failed launch, and why neither meets a residual phase it cannot carry. */
module Terminal {
  import opened Basics
  import opened Reports
  import opened DriverModel
  import opened ActorOutcome

  /** A local request to retire, and what it becomes for the application. */
  datatype Request = OwnerCancellation | CapabilityFailure(error: Token)

  datatype LocalIngress = EventIngress(event: Option<Token>) | RequestIngress(request: Request)

  datatype PublicIngress = EventAcquired(event: Option<Token>) | CancellationAcquired | FailureAcquired(error: Token)

  datatype Rejection = Address(error: Token) | Abandoned | HostCommitPanicked(payload: Token)

  /** What every residual phase carries on. */
  datatype Carried<I> = Carried(
    control: seq<Token>, user: seq<Token>, descendants: seq<Token>, childFailures: Token,
    capabilityFailures: seq<Token>, terminalReport: Option<Token>, retirementFailures: seq<Token>,
    receivedInterpretation: Option<Token>, receivedSource: Option<Token>, sourceIndex: Option<nat>,
    acquiredIngress: Option<I>, unreadOwnerCancellation: bool)

  datatype Remainder = Remainder(interpretation: Option<Token>, source: Option<Token>, settlements: seq<Token>)

  datatype ResidualPhase = PreparedPhase | UncommittedPhase(initialization: Token) | RetiredPhase(progress: Remainder)

  datatype LocalResidual = LocalResidual(
    phase: ResidualPhase, carried: Carried<LocalIngress>, activationTasks: seq<Token>, report: Report)

  /** How the Driver's opaque values are read by the local runtime. */
  datatype Local = Local(residual: Token -> LocalResidual, rejection: Token -> Rejection, request: Token -> Request)

  datatype ActorCustody = ActorCustody(behavior: Token, additional: seq<DriverError>, carried: Carried<PublicIngress>)

  datatype ActorRetirement =
    | InitializationRejected(custody: ActorCustody, error: Token)
    | InitializationPanickedRetirement(custody: ActorCustody, payload: Token)
    | HostCommitPanickedRetirement(custody: ActorCustody, initialization: Option<Token>, payload: Token)
    | TransitionPanickedRetirement(custody: ActorCustody, progress: Remainder, payload: Token)
    | HostExecutionPanickedRetirement(custody: ActorCustody, progress: Remainder, payload: Token)
    | HostRejected(custody: ActorCustody, committed: Token, error: Token)
    | BindingAbandoned(custody: ActorCustody, committed: Token)
    | CompletedRetirement(custody: ActorCustody, progress: Remainder, exhausted: bool)
    | BehaviorFailedRetirement(custody: ActorCustody, progress: Remainder, error: Token)
    | EffectsFailed(custody: ActorCustody, progress: Remainder, initialization: Option<Token>, failure: SettlementFailure)
    | OwnerCancelled(custody: ActorCustody, progress: Remainder)
    | CapabilityFailed(custody: ActorCustody, progress: Remainder, error: Token)
    | PreparedRetirementPanicked(custody: ActorCustody, payload: Token)
    | PreparedContractFailed(custody: ActorCustody)
    | InitializationRetirementPanicked(custody: ActorCustody, committed: Token, payload: Token)
    | InitializationContractFailed(custody: ActorCustody, committed: Token)
    | ActiveRetirementPanicked(custody: ActorCustody, progress: Remainder, payload: Token)
    | ActiveActivationPanicked(custody: ActorCustody, progress: Remainder, payload: Token)
    | ActiveContractFailed(custody: ActorCustody, progress: Remainder)
    | PreparedEffectsFailed(custody: ActorCustody, failure: SettlementFailure)
    | ActorTaskFailed(error: Token)
    | PanickedRetirement
    | CancelledRetirement

  // --------------------------------------------------------------- projection

  function PublicOf(ingress: Option<LocalIngress>): Option<PublicIngress> {
    match ingress
    case None => None
    case Some(EventIngress(event)) => Some(EventAcquired(event))
    case Some(RequestIngress(OwnerCancellation)) => Some(CancellationAcquired)
    case Some(RequestIngress(CapabilityFailure(error))) => Some(FailureAcquired(error))
  }

  function LocalOf(ingress: Option<PublicIngress>): Option<LocalIngress> {
    match ingress
    case None => None
    case Some(EventAcquired(event)) => Some(EventIngress(event))
    case Some(CancellationAcquired) => Some(RequestIngress(OwnerCancellation))
    case Some(FailureAcquired(error)) => Some(RequestIngress(CapabilityFailure(error)))
  }

  function Publish(c: Carried<LocalIngress>): Carried<PublicIngress> {
    Carried(c.control, c.user, c.descendants, c.childFailures, c.capabilityFailures, c.terminalReport,
            c.retirementFailures, c.receivedInterpretation, c.receivedSource, c.sourceIndex,
            PublicOf(c.acquiredIngress), c.unreadOwnerCancellation)
  }

  function CustodyOf(l: Local, o: ActorOutcome): ActorCustody
    requires ToRetirement(o).Some?
  {
    ActorCustody(o.behavior, o.additional, Publish(l.residual(o.residual).carried))
  }

  /** The projection of a local outcome. `None` is a panic: an arm marked unreachable, or
      capability tasks that were not joined. */
  function FromLocal(l: Local, o: ActorOutcome): Option<ActorRetirement> {
    if o.Panicked? then Some(PanickedRetirement)
    else if o.Cancelled? then Some(CancelledRetirement)
    else
      var residual := l.residual(o.residual);
      if residual.activationTasks != [] then None
      else Project(l, o, CustodyOf(l, o), residual.phase)
  }

  function Project(l: Local, o: ActorOutcome, custody: ActorCustody, phase: ResidualPhase): Option<ActorRetirement>
    requires !o.Panicked? && !o.Cancelled?
  {
    match o
    case CompletedOutcome(_, _, _, completion) =>
      if phase.RetiredPhase? then Some(Complete(l, custody, phase.progress, completion)) else None
    case BehaviorFailed(_, _, _, error) => (match phase
      case PreparedPhase => Some(InitializationRejected(custody, error))
      case RetiredPhase(progress) => Some(BehaviorFailedRetirement(custody, progress, error))
      case UncommittedPhase(_) => None)
    case InitializationPanic(_, _, _, payload) =>
      if phase.PreparedPhase? then Some(InitializationPanickedRetirement(custody, payload)) else None
    case TransitionPanic(_, _, _, payload) =>
      if phase.RetiredPhase? then Some(TransitionPanickedRetirement(custody, phase.progress, payload)) else None
    case HostExecutionPanic(_, _, _, payload) =>
      if phase.RetiredPhase? then Some(HostExecutionPanickedRetirement(custody, phase.progress, payload)) else None
    case ActivationPanic(_, _, _, payload) => (match phase
      case PreparedPhase => Some(HostCommitPanickedRetirement(custody, None, payload))
      case UncommittedPhase(initialization) => Some(HostCommitPanickedRetirement(custody, Some(initialization), payload))
      case RetiredPhase(progress) => Some(ActiveActivationPanicked(custody, progress, payload)))
    case RetirementPanic(_, _, _, payload) => (match phase
      case PreparedPhase => Some(PreparedRetirementPanicked(custody, payload))
      case UncommittedPhase(initialization) => Some(InitializationRetirementPanicked(custody, initialization, payload))
      case RetiredPhase(progress) => Some(ActiveRetirementPanicked(custody, progress, payload)))
    case ContractFailed(_, _, _) => (match phase
      case PreparedPhase => Some(PreparedContractFailed(custody))
      case UncommittedPhase(initialization) => Some(InitializationContractFailed(custody, initialization))
      case RetiredPhase(progress) => Some(ActiveContractFailed(custody, progress)))
    case ActivationFailed(_, _, _, error) => Reject(custody, phase, l.rejection(error))
    case SettlementFailed(_, _, _, failure) => (match phase
      case PreparedPhase => Some(PreparedEffectsFailed(custody, failure))
      case UncommittedPhase(initialization) => Some(EffectsFailed(custody, Remainder(None, None, []), Some(initialization), failure))
      case RetiredPhase(progress) => Some(EffectsFailed(custody, progress, None, failure)))
  }

  function Complete(l: Local, custody: ActorCustody, progress: Remainder, completion: Completion): ActorRetirement {
    match completion
    case Stopped => CompletedRetirement(custody, progress, false)
    case Exhausted => CompletedRetirement(custody, progress, true)
    case RetirementRequested(request) => match l.request(request)
      case OwnerCancellation => OwnerCancelled(custody, progress)
      case CapabilityFailure(error) => CapabilityFailed(custody, progress, error)
  }

  function Reject(custody: ActorCustody, phase: ResidualPhase, rejection: Rejection): Option<ActorRetirement> {
    match phase
    case PreparedPhase =>
      if rejection.HostCommitPanicked? then Some(HostCommitPanickedRetirement(custody, None, rejection.payload)) else None
    case UncommittedPhase(initialization) => (match rejection
      case HostCommitPanicked(payload) => Some(HostCommitPanickedRetirement(custody, Some(initialization), payload))
      case Address(error) => Some(HostRejected(custody, initialization, error))
      case Abandoned => Some(BindingAbandoned(custody, initialization)))
    case RetiredPhase(_) => None
  }

  // -------------------------------------------------------------- definedness

  /** The residual phases each outcome can be projected with. */
  predicate Fits(l: Local, o: ActorOutcome) {
    ToRetirement(o).Some? ==>
      var phase := l.residual(o.residual).phase;
      match o
      case CompletedOutcome(_, _, _, _) => phase.RetiredPhase?
      case BehaviorFailed(_, _, _, _) => !phase.UncommittedPhase?
      case InitializationPanic(_, _, _, _) => phase.PreparedPhase?
      case TransitionPanic(_, _, _, _) => phase.RetiredPhase?
      case HostExecutionPanic(_, _, _, _) => phase.RetiredPhase?
      case ActivationFailed(_, _, _, error) =>
        phase.UncommittedPhase? || (phase.PreparedPhase? && l.rejection(error).HostCommitPanicked?)
      case _ => true
  }

  predicate TasksJoined(l: Local, o: ActorOutcome) {
    ToRetirement(o).Some? ==> l.residual(o.residual).activationTasks == []
  }

  /** The projection is defined exactly when the tasks are joined and the phase fits. */
  lemma DefinedIff(l: Local, o: ActorOutcome)
    ensures FromLocal(l, o).Some? <==> TasksJoined(l, o) && Fits(l, o)
  {
  }

  /** The custody of a projected retirement; the three causes without state have none. */
  function CustodyIn(r: ActorRetirement): Option<ActorCustody> {
    if r.ActorTaskFailed? || r.PanickedRetirement? || r.CancelledRetirement? then None else Some(r.custody)
  }

  /** The application finds the original behavior, every later failure and every carried
      fact, with the ingress it can be read back from. */
  lemma CustodySurvives(l: Local, o: ActorOutcome)
    requires FromLocal(l, o).Some? && ToRetirement(o).Some?
    ensures var custody := CustodyIn(FromLocal(l, o).value);
      && custody == Some(CustodyOf(l, o))
      && custody.value.behavior == o.behavior && custody.value.additional == o.additional
      && LocalOf(custody.value.carried.acquiredIngress) == l.residual(o.residual).carried.acquiredIngress
  {
  }

  // ------------------------------------------------------------ failed launch

  /** A launch that failed before publication; the carried facts are flattened out of the
      residual, and the report and the notification travel beside them. */
  datatype SpawnError =
    | SpawnInitializationRejected(behavior: Token, error: Token, additional: seq<DriverError>, carried: Carried<LocalIngress>, notice: Notice)
    | SpawnInitializationPanicked(behavior: Token, payload: Token, additional: seq<DriverError>, carried: Carried<LocalIngress>, notice: Notice)
    | SpawnHostRejected(behavior: Token, initialization: Token, error: Token, additional: seq<DriverError>, carried: Carried<LocalIngress>, notice: Notice)
    | SpawnBindingAbandoned(behavior: Token, initialization: Token, additional: seq<DriverError>, carried: Carried<LocalIngress>, notice: Notice)
    | SpawnAllocationRejected(behavior: Token, reason: Token)
    | Unpublished(outcome: ActorOutcome, notice: Notice)
    | SpawnTaskFailed(error: Token, notice: Notice)
    | SpawnPanicked(notice: Notice)
    | SpawnCancelled(notice: Notice)

  datatype Notice = Notice(notification: Option<Token>, report: Report)

  /** The launch error of a local outcome: unjoined tasks keep the whole outcome. */
  function SpawnErrorOf(l: Local, o: ActorOutcome, notice: Notice): SpawnError {
    match o
    case Panicked => SpawnPanicked(notice)
    case Cancelled => SpawnCancelled(notice)
    case BehaviorFailed(behavior, residual, additional, error) =>
      var local := l.residual(residual);
      if local.phase.PreparedPhase? && local.activationTasks == [] then
        SpawnInitializationRejected(behavior, error, additional, local.carried, notice)
      else Unpublished(o, notice)
    case InitializationPanic(behavior, residual, additional, payload) =>
      var local := l.residual(residual);
      if local.phase.PreparedPhase? && local.activationTasks == [] then
        SpawnInitializationPanicked(behavior, payload, additional, local.carried, notice)
      else Unpublished(o, notice)
    case ActivationFailed(behavior, residual, additional, error) =>
      var local := l.residual(residual);
      if !local.phase.UncommittedPhase? || local.activationTasks != [] then Unpublished(o, notice)
      else (match l.rejection(error)
        case Address(refused) =>
          SpawnHostRejected(behavior, local.phase.initialization, refused, additional, local.carried, notice)
        case Abandoned => SpawnBindingAbandoned(behavior, local.phase.initialization, additional, local.carried, notice)
        case HostCommitPanicked(_) => Unpublished(o, notice))
    case _ => Unpublished(o, notice)
  }

  /** A retirement with its notice, the refusal of an actor that never started, or a panic. */
  datatype Projected = Projected(retirement: ActorRetirement, notice: Notice) | Refused(behavior: Token, reason: Token) | Panics

  function IntoRetirement(l: Local, e: SpawnError): Projected {
    match e
    case SpawnAllocationRejected(behavior, reason) => Projected.Refused(behavior, reason)
    case SpawnInitializationRejected(behavior, error, additional, carried, notice) =>
      Projected(InitializationRejected(ActorCustody(behavior, additional, Publish(carried)), error), notice)
    case SpawnInitializationPanicked(behavior, payload, additional, carried, notice) =>
      Projected(InitializationPanickedRetirement(ActorCustody(behavior, additional, Publish(carried)), payload), notice)
    case SpawnHostRejected(behavior, initialization, error, additional, carried, notice) =>
      Projected(HostRejected(ActorCustody(behavior, additional, Publish(carried)), initialization, error), notice)
    case SpawnBindingAbandoned(behavior, initialization, additional, carried, notice) =>
      Projected(BindingAbandoned(ActorCustody(behavior, additional, Publish(carried)), initialization), notice)
    case Unpublished(outcome, notice) => WithNotice(FromLocal(l, outcome), notice)
    case SpawnTaskFailed(error, notice) => Projected(ActorTaskFailed(error), notice)
    case SpawnPanicked(notice) => Projected(PanickedRetirement, notice)
    case SpawnCancelled(notice) => Projected(CancelledRetirement, notice)
  }

  function WithNotice(retirement: Option<ActorRetirement>, notice: Notice): Projected {
    if retirement.Some? then Projected(retirement.value, notice) else Panics
  }

  /** The two routes agree as partial functions: wherever the direct projection is defined
      the route through the launch error yields the same retirement field for field with
      its notice unchanged, and it panics exactly where the direct one does. */
  lemma RoutesCommute(l: Local, o: ActorOutcome, notice: Notice)
    ensures IntoRetirement(l, SpawnErrorOf(l, o, notice)) == WithNotice(FromLocal(l, o), notice)
  {
  }

  // ------------------------------------------------------------------ reports

  /** The report of a joined actor; `None` is a task that returned no outcome. */
  function ReportOf(l: Local, joined: Option<ActorOutcome>, notified: bool): Report {
    var report := match joined
      case None => Report(NotEstablished, FailuresFound)
      case Some(Panicked) => Report(NotEstablished, FailuresFound)
      case Some(Cancelled) => Report(NotEstablished, FailuresFound)
      case Some(CompletedOutcome(_, residual, additional, completion)) =>
        WithFailures(l.residual(residual).report,
          CombineFailures(
            if completion.RetirementRequested? && l.request(completion.request).CapabilityFailure? then FailuresFound else NoFailuresFound,
            if additional == [] then NoFailuresFound else FailuresFound))
      case Some(o) => WithFailures(l.residual(o.residual).report, FailuresFound);
    if notified then report else WithFailures(report, FailuresFound)
  }

  /** Nothing went wrong on the way to this outcome. */
  predicate Blameless(l: Local, o: ActorOutcome) {
    o.CompletedOutcome? && o.additional == []
    && !(o.completion.RetirementRequested? && l.request(o.completion.request).CapabilityFailure?)
  }

  /** Retirement is established exactly when a returned residual establishes it; a clean bill
      takes a blameless completion, a delivered notification and a residual without failures,
      and then it repeats what the residual says. */
  lemma ReportIsExact(l: Local, joined: Option<ActorOutcome>, notified: bool)
    ensures var report := ReportOf(l, joined, notified);
      var returned := joined.Some? && ToRetirement(joined.value).Some?;
      && (report.retirement.Established? <==> returned && l.residual(joined.value.residual).report.retirement.Established?)
      && (if notified && returned && Blameless(l, joined.value) then report == l.residual(joined.value.residual).report
          else report.failures.FailuresFound?)
  {
  }
}
