/** Every complete retirement of a Driver over the local host can be projected: the primary
    cause of a run fixes the residual phase, so no unreachable arm is reached. */
module TerminalPhases {
  import opened Basics
  import opened DriverModel
  import opened DriverInvariant
  import opened DriverHistory
  import opened DriverRetirement
  import opened ActorOutcome
  import T = Terminal

  // ------------------------------------------------------------ host contract

  /** The residual phases of the local host: an active owner retires to the retired phase,
      an environment that was never activated and is lent no actions to the prepared one,
      and a refusal has its initialization, or a host-commit panic, to show. */
  predicate PhaseKept(l: T.Local, activated: bool, e: Event) {
    match e
    case ActiveRetireCalled(_, _, _, _, _, _, _, reply) =>
      reply.residual.Some? ==> l.residual(reply.residual.value).phase.RetiredPhase?
    case PreparedRetireCalled(_, actions, reply) =>
      reply.residual.Some? && actions.None? && !activated ==> l.residual(reply.residual.value).phase.PreparedPhase?
    case ActivateCalled(_, _, _, reply) =>
      reply.activation.Some? && reply.activation.value.Refused? ==>
        var phase := l.residual(reply.activation.value.residual).phase;
        phase.UncommittedPhase? || (phase.PreparedPhase? && l.rejection(reply.activation.value.error).HostCommitPanicked?)
    case _ => true
  }

  predicate HasActivation(events: seq<Event>) {
    exists i :: 0 <= i < |events| && events[i].ActivateCalled?
  }

  /** The contract over a whole trace, given whether activation was tried before it. */
  ghost predicate PhasesKept(l: T.Local, activated: bool, events: seq<Event>) {
    forall i :: 0 <= i < |events| ==> PhaseKept(l, activated || HasActivation(events[..i]), events[i])
  }

  lemma PhasesKeptSplit(l: T.Local, activated: bool, a: seq<Event>, b: seq<Event>)
    requires PhasesKept(l, activated, a + b)
    ensures PhasesKept(l, activated, a) && PhasesKept(l, activated || HasActivation(a), b)
  {
    forall i | 0 <= i < |a| ensures PhaseKept(l, activated || HasActivation(a[..i]), a[i]) {
      assert (a + b)[..i] == a[..i] && (a + b)[i] == a[i];
    }
    forall i | 0 <= i < |b| ensures PhaseKept(l, activated || HasActivation(a) || HasActivation(b[..i]), b[i]) {
      HasActivationSplit(a, b[..i]);
      assert (a + b)[..|a| + i] == a + b[..i] && (a + b)[|a| + i] == b[i];
    }
  }

  lemma HasActivationSplit(a: seq<Event>, b: seq<Event>)
    ensures HasActivation(a + b) <==> HasActivation(a) || HasActivation(b)
  {
    if HasActivation(a) {
      var i :| 0 <= i < |a| && a[i].ActivateCalled?;
      assert (a + b)[i].ActivateCalled?;
    }
    if HasActivation(b) {
      var i :| 0 <= i < |b| && b[i].ActivateCalled?;
      assert (a + b)[|a| + i].ActivateCalled?;
    }
  }

  // ------------------------------------------------------------ run invariant

  /** The residual phase that goes with a primary cause. */
  predicate FitsCause(l: T.Local, cause: Cause, residual: Token) {
    var phase := l.residual(residual).phase;
    match cause
    case Completed(_) => phase.RetiredPhase?
    case Failed(Behavior(_)) => !phase.UncommittedPhase?
    case Failed(InitializationPanicked(_)) => phase.PreparedPhase?
    case Failed(TransitionPanicked(_)) => phase.RetiredPhase?
    case Failed(HostExecutionPanicked(_)) => phase.RetiredPhase?
    case Failed(Activation(error)) => phase.UncommittedPhase? || (phase.PreparedPhase? && l.rejection(error).HostCommitPanicked?)
    case Failed(Settlement(_)) => phase.RetiredPhase?
    case Failed(_) => true
  }

  /** An environment still waiting after an initialization failure was never activated. */
  ghost predicate NotActivated(d: DriverState) {
    || d.phase.Prepared?
    || (d.phase.Retiring? && d.active.None? && d.disposition.Some? && d.disposition.value.Failed? &&
        (d.disposition.value.failure.Behavior? || d.disposition.value.failure.InitializationPanicked?))
  }

  ghost predicate PhaseInv(l: T.Local, activated: bool, d: DriverState) {
    && Inv(d)
    && (d.disposition.Some? && d.residual.Some? ==> FitsCause(l, d.disposition.value, d.residual.value))
    && (NotActivated(d) ==> !activated)
  }

  lemma ActivateKeepsPhase(l: T.Local, activated: bool, d: DriverState, r: Round)
    requires PhaseInv(l, activated, d) && d.phase.Activating? && PhasesKept(l, activated, Activate(d, r).events)
    ensures PhaseInv(l, true, Activate(d, r).driver)
  {
    ActivateKeepsInv(d, r);
    var e := Activate(d, r).events[0];
    assert PhaseKept(l, activated || HasActivation(Activate(d, r).events[..0]), e);
  }

  /** The residual that a retirement call brings fits the cause that led to it. */
  lemma RetirementFits(l: T.Local, activated: bool, d: DriverState, r: Round)
    requires PhaseInv(l, activated, d) && d.phase.Retiring? && PhasesKept(l, activated, Retire(d, r).events)
    requires Retire(d, r).events != []
    ensures var e := Retire(d, r).driver;
      e.disposition == d.disposition && (e.residual.Some? ==> FitsCause(l, d.disposition.value, e.residual.value))
  {
    var events := Retire(d, r).events;
    assert !HasActivation(events[..0]);
    assert PhaseKept(l, activated || HasActivation(events[..0]), events[0]);
    PrimaryFixesOwner(d, r);
  }

  lemma RetireKeepsPhase(l: T.Local, activated: bool, d: DriverState, r: Round)
    requires PhaseInv(l, activated, d) && d.phase.Retiring? && PhasesKept(l, activated, Retire(d, r).events)
    ensures PhaseInv(l, activated, Retire(d, r).driver)
  {
    RetireKeepsInv(d, r);
    if Retire(d, r).events != [] {
      RetirementFits(l, activated, d, r);
    }
  }

  lemma StepKeepsPhase(l: T.Local, activated: bool, d: DriverState, r: Round)
    requires PhaseInv(l, activated, d) && PhasesKept(l, activated, Step(d, r).events)
    ensures PhaseInv(l, activated || HasActivation(Step(d, r).events), Step(d, r).driver)
  {
    StepShape(d, r);
    StepKeepsInv(d, r);
    match d.phase
    case Prepared =>
    case Activating =>
      ActivateKeepsPhase(l, activated, d, r);
      assert Step(d, r).events[0].ActivateCalled?;
    case Retiring => RetireKeepsPhase(l, activated, d, r);
    case RetirementAttempted =>
    case _ =>
      TurnKeepsOwner(d, r);
      StepPhase(d, r);
  }

  lemma {:induction false} RunKeepsPhase(l: T.Local, activated: bool, d: DriverState, rounds: seq<Round>)
    requires PhaseInv(l, activated, d) && PhasesKept(l, activated, Run(d, rounds).events)
    ensures exists now :: PhaseInv(l, now, Run(d, rounds).driver)
    decreases |rounds|
  {
    if rounds != [] {
      var first := Step(d, rounds[0]);
      var rest := Run(first.driver, rounds[1..]);
      PhasesKeptSplit(l, activated, first.events, rest.events);
      StepKeepsPhase(l, activated, d, rounds[0]);
      RunKeepsPhase(l, activated || HasActivation(first.events), first.driver, rounds[1..]);
    }
  }

  /** Over any run of any Behavior against a host that keeps the residual phases, dropped
      loans included, a complete retirement fits the projection; with its capability tasks
      joined it is projected, so every unreachable arm is dead. */
  lemma UnreachableArmsAreDead(l: T.Local, behavior: Token, environment: Token, rounds: seq<Round>)
    requires PhasesKept(l, false, Run(New(behavior, environment), rounds).events)
    requires Vacated(Run(New(behavior, environment), rounds).driver)
    ensures var outcome := FromRetirement(Reply(Run(New(behavior, environment), rounds).driver));
      T.Fits(l, outcome) && (T.TasksJoined(l, outcome) ==> T.FromLocal(l, outcome).Some?)
  {
    var d := Run(New(behavior, environment), rounds).driver;
    RunKeepsPhase(l, false, New(behavior, environment), rounds);
    var now :| PhaseInv(l, now, d);
    T.DefinedIff(l, FromRetirement(Reply(d)));
  }
}
