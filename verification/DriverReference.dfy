/** The recursive reading of the Driver: a depth-first interpreter over the same replies. */
module DriverReference {
  import opened Basics
  import opened DriverModel
  import opened DriverCauses
  import opened DriverRetirement

  /** A call of the Driver on the Behavior or on the host. */
  datatype Op =
    | Initializes
    | Activates(actions: Token)
    | Offers(settlement: Token)
    | AsksControl
    | AsksOrdinary
    | Folds(event: Token)
    | Applies(actions: Token)
    | Publishes
    | RetiresPrepared
    | RetiresActive(settlements: seq<Custody>)

  function OpsOf(e: Event): seq<Op> {
    match e
    case Initialized(_) => [Initializes]
    case ActivateCalled(_, actions, _, _) => if actions.Some? then [Activates(actions.value)] else []
    case StatusRead(_, _, _) => []
    case OfferCalled(_, _, lent, _, _, _, _) => if lent.Some? then [Offers(lent.value)] else []
    case EventRequested(control, _) => [if control then AsksControl else AsksOrdinary]
    case Folded(event, _) => [Folds(event)]
    case PublishCalled(_) => [Publishes]
    case ApplyCalled(actions, _, _) => [Applies(actions)]
    case PreparedRetireCalled(_, _, _) => [RetiresPrepared]
    case ActiveRetireCalled(_, _, _, _, _, _, settlements, _) =>
      if settlements.Some? then [RetiresActive(settlements.value)] else []
  }

  function Ops(events: seq<Event>): seq<Op> {
    if events == [] then [] else OpsOf(events[0]) + Ops(events[1..])
  }

  // ------------------------------------------------- the recursive interpreter

  /** The replies of a whole run are fixed; `at` is the first one not used yet. */
  datatype Outcome =
    /** Nothing more can be made of the settlement; `rows` stay retained, newest first. */
    | Settled(ops: seq<Op>, rows: seq<Custody>, next: nat, at: nat)
    /** A cause ended the run; `rows` are still owned, newest first. */
    | Ended(ops: seq<Op>, rows: seq<Custody>, cause: Cause, at: nat)
    /** No further reply has arrived. */
    | Waiting(ops: seq<Op>)

  function After(ops: seq<Op>, outcome: Outcome): Outcome {
    outcome.(ops := ops + outcome.ops)
  }

  /** Offer `s`. An admitted offer is followed by its control event and by everything that
      event causes, and only then is `s` offered again; `kept` are the newer rows that were
      retained meanwhile. */
  function Settle(s: Custody, kept: seq<Custody>, next: nat, rounds: seq<Round>, at: nat): (o: Outcome)
    requires AllConserving(rounds) && at <= |rounds|
    ensures !o.Waiting? ==> at < o.at <= |rounds|
    decreases |rounds| - at, 0
  {
    if at == |rounds| then Waiting([])
    else
      var r := rounds[at];
      var offer := [Offers(s.token)];
      match r.offer.received.value
      case SourceExhausted(_) =>
        if r.disposal.Some? then Ended(offer, kept, Failed(HostExecutionPanicked(r.disposal.value)), at + 1)
        else Settled(offer, kept, next, at + 1)
      case SourceRetained(token) => Settled(offer, kept + [Custody(token, s.turn)], next, at + 1)
      case SourceClosing(token) => Ended(offer, kept + [Custody(token, s.turn)], Failed(Settlement(SourceClosed)), at + 1)
      case SourceAdmitted(token) =>
        var s' := Custody(token, s.turn);
        match React(true, next, rounds, at + 1)
        case Settled(ops, rows, next', at') => After(offer + ops, Settle(s', rows + kept, next', rounds, at'))
        case Ended(ops, rows, cause, at') => Ended(offer + ops, rows + kept + [s'], cause, at')
        case Waiting(ops) => Waiting(offer + ops)
  }

  /** Acquire one event, fold it, apply the decision and settle its settlement completely. */
  function React(control: bool, next: nat, rounds: seq<Round>, at: nat): (o: Outcome)
    requires AllConserving(rounds) && at <= |rounds|
    ensures !o.Waiting? ==> at < o.at <= |rounds|
    decreases |rounds| - at, 0
  {
    if at == |rounds| then Waiting([])
    else
      var r := rounds[at];
      var ask := [if control then AsksControl else AsksOrdinary];
      match r.ingress.end.reply
      case Proceed(None) =>
        Ended(ask, [], if control then Failed(Settlement(SourceClosed)) else Completed(Exhausted), at + 1)
      case Leave(request) => Ended(ask, [], Completed(RetirementRequested(request)), at + 1)
      case Proceed(Some(event)) =>
        match r.fold
        case Erred(error) => Ended(ask + [Folds(event)], [], Failed(Behavior(error)), at + 1)
        case FoldPanicked(payload) => Ended(ask + [Folds(event)], [], Failed(TransitionPanicked(payload)), at + 1)
        case Decided(actions, decision) =>
          After(ask + [Folds(event), Applies(actions)],
                Enter(r.apply.interpretation.value, decision, false, next, rounds, at + 1))
  }

  /** Classify a settlement that has just been interpreted, then settle it. */
  function Enter(token: Token, decision: Decision, initializing: bool, next: nat, rounds: seq<Round>, at: nat): (o: Outcome)
    requires AllConserving(rounds) && at <= |rounds|
    ensures !o.Waiting? ==> at < o.at <= |rounds|
    decreases |rounds| - at, 1
  {
    if at == |rounds| then Waiting([])
    else
      var s := Custody(token, next);
      var causes := StatusCauses(initializing, Some(decision), rounds[at].status);
      if rounds[at].status.ClassifierPanicked? then Ended([], [], causes[0], at + 1)
      else if causes != [] then Ended([], [s], causes[0], at + 1)
      else Settle(s, [], next + 1, rounds, at)
  }

  function Close(rows: seq<Custody>, rounds: seq<Round>, at: nat): seq<Op> {
    if at >= |rounds| then [] else [RetiresActive(rows)]
  }

  /** Ordinary events one after the other, each with everything it causes. */
  function Serve(kept: seq<Custody>, next: nat, rounds: seq<Round>, at: nat): seq<Op>
    requires AllConserving(rounds) && at <= |rounds|
    decreases |rounds| - at
  {
    match React(false, next, rounds, at)
    case Waiting(ops) => ops
    case Ended(ops, rows, _, at') => ops + Close(rows + kept, rounds, at')
    case Settled(ops, rows, next', at') => ops + Serve(rows + kept, next', rounds, at')
  }

  function Announce(kept: seq<Custody>, next: nat, rounds: seq<Round>, at: nat): seq<Op>
    requires AllConserving(rounds) && at <= |rounds|
  {
    if at == |rounds| then []
    else [Publishes] + if rounds[at].publish.Published? then Serve(kept, next, rounds, at + 1) else Close(kept, rounds, at + 1)
  }

  function Establish(token: Token, decision: Decision, rounds: seq<Round>, at: nat): seq<Op>
    requires AllConserving(rounds) && at <= |rounds|
  {
    match Enter(token, decision, true, 0, rounds, at)
    case Waiting(ops) => ops
    case Ended(ops, rows, _, at') => ops + Close(rows, rounds, at')
    case Settled(ops, rows, next, at') => ops + Announce(rows, next, rounds, at')
  }

  /** The calls of one whole execution. */
  function Execute(rounds: seq<Round>): seq<Op>
    requires AllConserving(rounds)
  {
    if rounds == [] then []
    else if !rounds[0].fold.Decided? then [Initializes] + if |rounds| == 1 then [] else [RetiresPrepared]
    else if |rounds| == 1 then [Initializes]
    else
      var actions, decision := rounds[0].fold.actions, rounds[0].fold.decision;
      [Initializes, Activates(actions)] +
      match rounds[1].activate.activation.value
      case Refused(_, _) => []
      case Established(_, interpretation) => Establish(interpretation, decision, rounds, 2)
  }
}
