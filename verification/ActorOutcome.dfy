/** The terminal classification of one execution, from the Driver's retirement record. */
module ActorOutcome {
  import opened Basics
  import opened DriverModel
  import opened DriverInvariant
  import opened DriverRetirement

  datatype ActorOutcome =
    | CompletedOutcome(behavior: Token, residual: Token, additional: seq<DriverError>, completion: Completion)
    | BehaviorFailed(behavior: Token, residual: Token, additional: seq<DriverError>, error: Token)
    | InitializationPanic(behavior: Token, residual: Token, additional: seq<DriverError>, payload: Token)
    | TransitionPanic(behavior: Token, residual: Token, additional: seq<DriverError>, payload: Token)
    | HostExecutionPanic(behavior: Token, residual: Token, additional: seq<DriverError>, payload: Token)
    | ActivationPanic(behavior: Token, residual: Token, additional: seq<DriverError>, payload: Token)
    | RetirementPanic(behavior: Token, residual: Token, additional: seq<DriverError>, payload: Token)
    | ContractFailed(behavior: Token, residual: Token, additional: seq<DriverError>)
    | ActivationFailed(behavior: Token, residual: Token, additional: seq<DriverError>, error: Token)
    | SettlementFailed(behavior: Token, residual: Token, additional: seq<DriverError>, failure: SettlementFailure)
    | Panicked
    | Cancelled

  function FromRetirement(r: Retirement): ActorOutcome {
    match r.disposition
    case Completed(completion) => CompletedOutcome(r.behavior, r.residual, r.additionalFailures, completion)
    case Failed(Behavior(error)) => BehaviorFailed(r.behavior, r.residual, r.additionalFailures, error)
    case Failed(InitializationPanicked(payload)) => InitializationPanic(r.behavior, r.residual, r.additionalFailures, payload)
    case Failed(TransitionPanicked(payload)) => TransitionPanic(r.behavior, r.residual, r.additionalFailures, payload)
    case Failed(HostExecutionPanicked(payload)) => HostExecutionPanic(r.behavior, r.residual, r.additionalFailures, payload)
    case Failed(ActivationPanicked(payload)) => ActivationPanic(r.behavior, r.residual, r.additionalFailures, payload)
    case Failed(RetirementPanicked(payload)) => RetirementPanic(r.behavior, r.residual, r.additionalFailures, payload)
    case Failed(InterpreterContractFailed) => ContractFailed(r.behavior, r.residual, r.additionalFailures)
    case Failed(Activation(error)) => ActivationFailed(r.behavior, r.residual, r.additionalFailures, error)
    case Failed(Settlement(failure)) => SettlementFailed(r.behavior, r.residual, r.additionalFailures, failure)
  }

  /** The retirement record behind a classification; the guard's own two have none. */
  function ToRetirement(o: ActorOutcome): Option<Retirement> {
    match o
    case CompletedOutcome(b, r, a, completion) => Some(Retirement(b, r, Completed(completion), a))
    case BehaviorFailed(b, r, a, error) => Some(Retirement(b, r, Failed(Behavior(error)), a))
    case InitializationPanic(b, r, a, payload) => Some(Retirement(b, r, Failed(InitializationPanicked(payload)), a))
    case TransitionPanic(b, r, a, payload) => Some(Retirement(b, r, Failed(TransitionPanicked(payload)), a))
    case HostExecutionPanic(b, r, a, payload) => Some(Retirement(b, r, Failed(HostExecutionPanicked(payload)), a))
    case ActivationPanic(b, r, a, payload) => Some(Retirement(b, r, Failed(ActivationPanicked(payload)), a))
    case RetirementPanic(b, r, a, payload) => Some(Retirement(b, r, Failed(RetirementPanicked(payload)), a))
    case ContractFailed(b, r, a) => Some(Retirement(b, r, Failed(InterpreterContractFailed), a))
    case ActivationFailed(b, r, a, error) => Some(Retirement(b, r, Failed(Activation(error)), a))
    case SettlementFailed(b, r, a, failure) => Some(Retirement(b, r, Failed(Settlement(failure)), a))
    case Panicked => None
    case Cancelled => None
  }

  /** The classification loses nothing and invents nothing. */
  lemma ClassificationRoundTrip(r: Retirement, o: ActorOutcome)
    ensures ToRetirement(FromRetirement(r)) == Some(r)
    ensures ToRetirement(o).Some? ==> FromRetirement(ToRetirement(o).value) == o
  {
  }

  /** No completed run of the Driver is classified as a retirement panic. */
  lemma RetirementPanicIsNeverPrimary(behavior: Token, environment: Token, rounds: seq<Round>)
    requires Vacated(Run(New(behavior, environment), rounds).driver)
    ensures !FromRetirement(Reply(Run(New(behavior, environment), rounds).driver)).RetirementPanic?
  {
    RunKeepsInv(New(behavior, environment), rounds);
  }
}
