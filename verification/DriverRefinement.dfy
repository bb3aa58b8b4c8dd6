/** The loop over the queue of rows makes exactly the calls of the recursive interpreter. */
module DriverRefinement {
  import opened Basics
  import opened Operations
  import opened DriverModel
  import opened DriverInvariant
  import opened DriverCauses
  import opened DriverTurns
  import opened DriverRetirement
  import opened DriverReference

  function Keep(rows: seq<Custody>): seq<SettlementTurn> {
    seq(|rows|, i requires 0 <= i < |rows| => Retained(rows[i]))
  }

  lemma KeepAppend(a: seq<Custody>, b: seq<Custody>)
    ensures Keep(a + b) == Keep(a) + Keep(b)
    ensures Custodies(Keep(a)) == a
  {
  }

  lemma CustodiesAppend(a: seq<SettlementTurn>, b: seq<SettlementTurn>)
    ensures Custodies(a + b) == Custodies(a) + Custodies(b)
  {
  }

  // ------------------------------------------------------------------ traces

  lemma {:induction false} OpsAppend(a: seq<Event>, b: seq<Event>)
    ensures Ops(a + b) == Ops(a) + Ops(b)
  {
    if a == [] {
      assert a + b == b;
    } else {
      assert (a + b)[1..] == a[1..] + b;
      OpsAppend(a[1..], b);
    }
  }

  lemma OpsOne(e: Event)
    ensures Ops([e]) == OpsOf(e)
  {
    assert [e][1..] == [];
  }

  /** The calls of the loop from `d` on, with the replies from `at` on. */
  function Trace(d: DriverState, rounds: seq<Round>, at: nat): seq<Op>
    requires at <= |rounds|
  {
    Ops(Run(d, rounds[at..]).events)
  }

  lemma TraceStep(d: DriverState, rounds: seq<Round>, at: nat)
    requires at < |rounds|
    ensures Trace(d, rounds, at) == Ops(Step(d, rounds[at]).events) + Trace(Step(d, rounds[at]).driver, rounds, at + 1)
  {
    assert rounds[at..][0] == rounds[at] && rounds[at..][1..] == rounds[at + 1..];
    OpsAppend(Step(d, rounds[at]).events, Run(Step(d, rounds[at]).driver, rounds[at + 1..]).events);
  }

  // ------------------------------------------------------------ single turns

  ghost predicate Quiet(d: DriverState) {
    Inv(d) && Calm(d) && Running(d) && !d.phase.Initializing? && d.interpretation.None?
  }

  ghost predicate Finished(d: DriverState, rows: seq<Custody>, cause: Cause) {
    && Inv(d) && d.phase.Retiring? && d.active.Some? && d.sourceIndex.None?
    && Custodies(d.settlements) == rows && d.disposition == Some(cause) && d.additionalFailures == []
  }

  lemma QuietStep(d: DriverState, r: Round)
    requires Quiet(d)
    ensures Step(d, r) == Select(d, r)
  {
  }

  lemma HoldNext(d: DriverState, kept: seq<Custody>, s: Custody, after: seq<SettlementTurn>, r: Round)
    requires Quiet(d) && d.settlements == Keep(kept) + [Offer(s)] + after
    ensures var held := Hold(d, |kept|);
      && Step(d, r) == OfferHeld(held, r)
      && held.settlements == Keep(kept) + after && held.heldTurn == s.turn && held.sourceInput == Some(s)
      && held.sourceReceived.None? && held.sourceIndex == Some(|kept|)
      && held.phase == d.phase && held.received == d.received
      && held.disposition.None? && held.additionalFailures == []
  {
    NextAfter(Keep(kept), Offer(s), after);
    assert d.settlements[|kept|] == Offer(s);
    assert Remove(d.settlements, |kept|) == Keep(kept) + after;
  }

  /** The row that a conserving offer leaves at the place of the offered one. */
  function RowLeft(reply: SourceReply, turn: nat): seq<SettlementTurn> {
    match reply
    case SourceExhausted(_) => []
    case SourceRetained(token) => [Retained(Custody(token, turn))]
    case SourceAdmitted(token) => [AwaitSource(Custody(token, turn))]
    case SourceClosing(token) => [Offer(Custody(token, turn))]
  }

  lemma ConservingOffer(held: DriverState, r: Round)
    requires Conserving(r) && held.sourceIndex.Some? && held.sourceReceived.None? && held.sourceInput.Some?
    requires held.disposition.None? && held.additionalFailures == [] && held.sourceIndex.value <= |held.settlements|
    ensures var p := OfferHeld(held, r);
      var i := held.sourceIndex.value;
      && Ops(p.events) == [Offers(held.sourceInput.value.token)]
      && p.driver.sourceIndex.None? && p.driver.received == held.received && p.driver.active == held.active
      && p.driver.interpretation == held.interpretation && p.driver.additionalFailures == []
      && p.driver.settlements == held.settlements[..i] + RowLeft(r.offer.received.value, held.heldTurn) + held.settlements[i..]
      && (var causes := OfferCauses(None, r.offer.received, [], r.disposal);
          if causes == [] then p.driver.phase == held.phase && p.driver.disposition.None?
          else p.driver.phase.Retiring? && p.driver.disposition == Some(causes[0]))
  {
    OpsOne(OfferHeld(held, r).events[0]);
    assert held.settlements == held.settlements[..held.sourceIndex.value] + held.settlements[held.sourceIndex.value..];
  }

  lemma OfferTurn(d: DriverState, kept: seq<Custody>, s: Custody, after: seq<SettlementTurn>, r: Round)
    requires Quiet(d) && Conserving(r) && d.settlements == Keep(kept) + [Offer(s)] + after
    ensures Ops(Step(d, r).events) == [Offers(s.token)]
    ensures var row := RowLeft(r.offer.received.value, s.turn);
      var causes := OfferCauses(None, r.offer.received, [], r.disposal);
      var e := Step(d, r).driver;
      if causes != [] then Finished(e, kept + Custodies(row) + Custodies(after), causes[0])
      else Quiet(e) && e.received == d.received && e.phase == d.phase && e.settlements == Keep(kept) + row + after
  {
    HoldNext(d, kept, s, after, r);
    var held := Hold(d, |kept|);
    ConservingOffer(held, r);
    StepKeepsInv(d, r);
    StepStaysCalm(d, r);
    var row := RowLeft(r.offer.received.value, s.turn);
    assert held.settlements[..|kept|] == Keep(kept) && held.settlements[|kept|..] == after;
    CustodiesAppend(Keep(kept) + row, after);
    CustodiesAppend(Keep(kept), row);
    KeepAppend(kept, []);
  }

  function Acquire(control: bool, d: DriverState, r: Round): Progress {
    if control then AcquireControl(d, r) else AcquireOrdinary(d, r)
  }

  /** The turn from `d` is a request made with the rows of `d1`. */
  ghost predicate Asks(d: DriverState, d1: DriverState, control: bool, r: Round) {
    Quiet(d) && d1 == d.(settlements := d1.settlements) && Step(d, r) == Acquire(control, d1, r)
  }

  lemma ControlAsks(d: DriverState, kept: seq<Custody>, s: Custody, after: seq<SettlementTurn>, r: Round)
    requires Quiet(d) && d.settlements == Keep(kept) + [AwaitSource(s)] + after
    ensures Asks(d, d.(settlements := Keep(kept) + [Offer(s)] + after), true, r)
  {
    NextAfter(Keep(kept), AwaitSource(s), after);
    assert d.settlements[|kept|] == AwaitSource(s);
    assert Remove(d.settlements, |kept|) == Keep(kept) + after;
    assert Insert(Remove(d.settlements, |kept|), |kept|, Offer(s)) == Keep(kept) + [Offer(s)] + after;
  }

  lemma OrdinaryAsks(d: DriverState, r: Round)
    requires Quiet(d) && d.phase.Active? && AllRetained(d.settlements)
    ensures Asks(d, d, false, r)
  {
    assert NextRow(d.settlements).None?;
  }

  function Asking(control: bool): seq<Op> {
    [if control then AsksControl else AsksOrdinary]
  }

  /** A request that acquires no event to fold. */
  lemma RequestEnds(d: DriverState, d1: DriverState, control: bool, r: Round)
    requires Asks(d, d1, control, r) && Conserving(r)
    requires r.ingress.end.reply == Proceed(None) || r.ingress.end.reply.Leave?
    ensures Ops(Step(d, r).events) == Asking(control)
    ensures Finished(Step(d, r).driver, Custodies(d1.settlements), IngressCauses(control, Some(r.ingress.end.reply), [])[0])
  {
    StepKeepsInv(d, r);
    OpsOne(EventRequested(control, Receive(r.ingress, None)));
  }

  lemma OpsTwo(a: Event, b: Event)
    ensures Ops([a, b]) == OpsOf(a) + OpsOf(b)
  {
    assert [a, b] == [a] + [b];
    OpsAppend([a], [b]);
    OpsOne(a);
    OpsOne(b);
  }

  /** A clean acquisition of an event is followed by its fold. */
  lemma AcquireThenFold(control: bool, d: DriverState, event: Token, r: Round)
    requires Conserving(r) && r.ingress.end.reply == Proceed(Some(event)) && d.ingress.None? && Running(d)
    ensures Acquire(control, d, r)
         == Progress(Fold(d, event, r).driver, [EventRequested(control, Receive(r.ingress, None))] + Fold(d, event, r).events)
  {
    assert d.(ingress := None) == d;
  }

  lemma FoldFails(d: DriverState, event: Token, r: Round)
    requires !r.fold.Decided? && d.disposition.None? && d.additionalFailures == []
    ensures var p := Fold(d, event, r);
      && p.events == [Folded(event, r.fold)]
      && p.driver == d.(disposition := Some(FoldCauses(r.fold, false)[0]), phase := Retiring)
  {
  }

  lemma FoldDecides(d: DriverState, event: Token, r: Round)
    requires Conserving(r) && r.fold.Decided? && d.active.Some? && d.interpretation.None? && Running(d)
    ensures var p := Fold(d, event, r);
      && p.events == [Folded(event, r.fold), ApplyCalled(r.fold.actions, None, r.apply)]
      && p.driver == d.(actions := None, decision := Some(r.fold.decision), interpretation := r.apply.interpretation)
  {
  }

  lemma RequestFails(d: DriverState, d1: DriverState, control: bool, event: Token, r: Round)
    requires Asks(d, d1, control, r) && Conserving(r)
    requires r.ingress.end.reply == Proceed(Some(event)) && !r.fold.Decided?
    ensures Ops(Step(d, r).events) == Asking(control) + [Folds(event)]
    ensures Finished(Step(d, r).driver, Custodies(d1.settlements), FoldCauses(r.fold, false)[0])
  {
    StepKeepsInv(d, r);
    AcquireThenFold(control, d1, event, r);
    FoldFails(d1, event, r);
    OpsTwo(EventRequested(control, Receive(r.ingress, None)), Folded(event, r.fold));
  }

  lemma RequestCalls(d: DriverState, d1: DriverState, control: bool, event: Token, r: Round)
    requires Asks(d, d1, control, r) && Conserving(r)
    requires r.ingress.end.reply == Proceed(Some(event)) && r.fold.Decided?
    ensures Step(d, r).events
         == [EventRequested(control, Receive(r.ingress, None)), Folded(event, r.fold), ApplyCalled(r.fold.actions, None, r.apply)]
    ensures var e := Step(d, r).driver;
      && e.phase == d.phase && e.received == d.received && e.settlements == d1.settlements
      && e.interpretation == r.apply.interpretation && e.decision == Some(r.fold.decision)
  {
    AcquireThenFold(control, d1, event, r);
    FoldDecides(d1, event, r);
  }

  lemma OpsOfRequest(control: bool, got: Receipt<Ingress>, folded: Event, applied: Event)
    requires folded.Folded? && applied.ApplyCalled?
    ensures Ops([EventRequested(control, got), folded, applied])
         == OpsOf(EventRequested(control, got)) + (OpsOf(folded) + OpsOf(applied))
  {
    OpsAppend([EventRequested(control, got)], [folded, applied]);
    OpsOne(EventRequested(control, got));
    OpsTwo(folded, applied);
    assert [EventRequested(control, got)] + [folded, applied] == [EventRequested(control, got), folded, applied];
  }

  lemma AskStays(d: DriverState, d1: DriverState, control: bool, r: Round)
    requires Asks(d, d1, control, r) && Conserving(r)
    ensures Inv(Step(d, r).driver) && Calm(Step(d, r).driver)
  {
    StepKeepsInv(d, r);
    StepStaysCalm(d, r);
  }

  lemma RequestDecides(d: DriverState, d1: DriverState, control: bool, event: Token, r: Round)
    requires Asks(d, d1, control, r) && Conserving(r)
    requires r.ingress.end.reply == Proceed(Some(event)) && r.fold.Decided?
    ensures Ops(Step(d, r).events) == Asking(control) + [Folds(event), Applies(r.fold.actions)]
    ensures var e := Step(d, r).driver;
      && Inv(e) && Calm(e) && e.phase == d.phase && e.received == d.received && e.settlements == d1.settlements
      && e.interpretation == r.apply.interpretation && e.decision == Some(r.fold.decision)
  {
    AskStays(d, d1, control, r);
    RequestCalls(d, d1, control, event, r);
    OpsOfRequest(control, Receive(r.ingress, None), Folded(event, r.fold), ApplyCalled(r.fold.actions, None, r.apply));
  }

  lemma ClassifyEnds(d: DriverState, token: Token, decision: Decision, r: Round)
    requires Inv(d) && Running(d) && d.interpretation == Some(token) && d.decision == Some(decision)
    requires StatusCauses(d.phase.Initializing?, Some(decision), r.status) != []
    ensures var e := Classify(d, r).driver;
      && Turn(d, r) == Classify(d, r)
      && e.phase.Retiring? && e.active.Some? && e.sourceIndex.None? && e.additionalFailures == []
      && e.disposition == Some(StatusCauses(d.phase.Initializing?, Some(decision), r.status)[0])
      && e.settlements == (if r.status.Classified? then [Offer(Custody(token, d.received))] else []) + d.settlements
  {
    assert [] + d.settlements == d.settlements;
  }

  lemma EnterEnds(d: DriverState, token: Token, decision: Decision, r: Round)
    requires Inv(d) && Calm(d) && Running(d) && d.interpretation == Some(token) && d.decision == Some(decision)
    requires StatusCauses(d.phase.Initializing?, Some(decision), r.status) != []
    ensures Ops(Step(d, r).events) == []
    ensures Finished(Step(d, r).driver,
                     (if r.status.Classified? then [Custody(token, d.received)] else []) + Custodies(d.settlements),
                     StatusCauses(d.phase.Initializing?, Some(decision), r.status)[0])
  {
    ClassifyKeepsInv(d, r);
    ClassifyEnds(d, token, decision, r);
    OpsOne(Classify(d, r).events[0]);
    CustodiesAppend(if r.status.Classified? then [Offer(Custody(token, d.received))] else [], d.settlements);
  }

  lemma ClassifyContinues(d: DriverState, token: Token, decision: Decision, r: Round) returns (d1: DriverState)
    requires Inv(d) && Calm(d) && Running(d) && d.interpretation == Some(token) && d.decision == Some(decision)
    requires StatusCauses(d.phase.Initializing?, Some(decision), r.status) == []
    ensures d1 == Classify(d, r).driver
    ensures Quiet(d1) && d1.settlements == [Offer(Custody(token, d.received))] + d.settlements && d1.received == d.received + 1
    ensures d1.phase == if d.phase.Initializing? then SettlingInitialization else d.phase
    ensures Step(d, r).driver == Step(d1, r).driver && Ops(Step(d, r).events) == Ops(Step(d1, r).events)
  {
    var classified := Classify(d, r);
    d1 := classified.driver;
    ClassifyKeepsInv(d, r);
    QuietStep(d1, r);
    var selected := Select(d1, r);
    OpsOne(classified.events[0]);
    OpsAppend(classified.events, selected.events);
  }

  /** The classified settlement heads the queue, and the same round then offers it. */
  lemma EnterContinues(d: DriverState, token: Token, decision: Decision, rounds: seq<Round>, at: nat) returns (d1: DriverState)
    requires Inv(d) && Calm(d) && Running(d) && d.interpretation == Some(token) && d.decision == Some(decision)
    requires at < |rounds|
    requires StatusCauses(d.phase.Initializing?, Some(decision), rounds[at].status) == []
    ensures Quiet(d1) && d1.settlements == [Offer(Custody(token, d.received))] + d.settlements && d1.received == d.received + 1
    ensures d1.phase == if d.phase.Initializing? then SettlingInitialization else d.phase
    ensures Trace(d, rounds, at) == Trace(d1, rounds, at)
  {
    d1 := ClassifyContinues(d, token, decision, rounds[at]);
    TraceStep(d, rounds, at);
    TraceStep(d1, rounds, at);
  }

  // -------------------------------------------------------------- simulation

  /** The trace of the loop is the outcome of the interpreter followed by the trace from
      `e`, whose queue is what the interpreter left in front of `older`. */
  ghost predicate Simulates(o: Outcome, trace: seq<Op>, e: DriverState, phase: Phase, older: seq<SettlementTurn>, rounds: seq<Round>) {
    match o
    case Waiting(ops) => trace == ops
    case Settled(ops, rows, next, at) =>
      && at <= |rounds| && trace == ops + Trace(e, rounds, at)
      && Quiet(e) && e.phase == phase && e.received == next && e.settlements == Keep(rows) + older
    case Ended(ops, rows, cause, at) =>
      && at <= |rounds| && trace == ops + Trace(e, rounds, at)
      && Finished(e, rows + Custodies(older), cause)
  }

  lemma SimulatesAfter(ops: seq<Op>, o: Outcome, trace: seq<Op>, e: DriverState, phase: Phase, older: seq<SettlementTurn>, rounds: seq<Round>)
    requires Simulates(o, trace, e, phase, older, rounds)
    ensures Simulates(After(ops, o), ops + trace, e, phase, older, rounds)
  {
    if !o.Waiting? {
      Reassociate(ops, o.ops, Trace(e, rounds, o.at));
    }
  }

  lemma {:induction false} SettleSimulates(
    d: DriverState, kept: seq<Custody>, s: Custody, after: seq<SettlementTurn>, rounds: seq<Round>, at: nat) returns (e: DriverState)
    requires AllConserving(rounds) && at <= |rounds|
    requires Quiet(d) && d.settlements == Keep(kept) + [Offer(s)] + after
    ensures Simulates(Settle(s, kept, d.received, rounds, at), Trace(d, rounds, at), e, d.phase, after, rounds)
    decreases |rounds| - at, 1
  {
    e := d;
    if at < |rounds| {
      if rounds[at].offer.received.value.SourceAdmitted? {
        e := AdmittedSimulates(d, kept, s, after, rounds, at);
      } else {
        e := SettledSimulates(d, kept, s, after, rounds, at);
      }
    }
  }

  /** An offer that is not admitted. */
  lemma SettledSimulates(d: DriverState, kept: seq<Custody>, s: Custody, after: seq<SettlementTurn>, rounds: seq<Round>, at: nat)
    returns (e: DriverState)
    requires AllConserving(rounds) && at < |rounds| && !rounds[at].offer.received.value.SourceAdmitted?
    requires Quiet(d) && d.settlements == Keep(kept) + [Offer(s)] + after
    ensures Simulates(Settle(s, kept, d.received, rounds, at), Trace(d, rounds, at), e, d.phase, after, rounds)
  {
    OfferTurn(d, kept, s, after, rounds[at]);
    TraceStep(d, rounds, at);
    e := Step(d, rounds[at]).driver;
    SettledRow(kept, RowLeft(rounds[at].offer.received.value, s.turn), after);
  }

  lemma SettledRow(kept: seq<Custody>, row: seq<SettlementTurn>, after: seq<SettlementTurn>)
    requires |row| <= 1
    ensures row != [] && row[0].Retained? ==> Keep(kept) + row + after == Keep(kept + [row[0].settlement]) + after
    ensures row == [] ==> Keep(kept) + row + after == Keep(kept) + after
    ensures row != [] ==> Custodies(row) == [row[0].settlement]
    ensures row == [] ==> kept + Custodies(row) == kept
  {
  }

  /** The interpreter's own equations, stated once so that the proofs below need not unfold it. */
  lemma SettleAdmitted(s: Custody, kept: seq<Custody>, next: nat, rounds: seq<Round>, at: nat)
    requires AllConserving(rounds) && at < |rounds| && rounds[at].offer.received.value.SourceAdmitted?
    ensures var s' := Custody(rounds[at].offer.received.value.settlement, s.turn);
      var chain := React(true, next, rounds, at + 1);
      Settle(s, kept, next, rounds, at) ==
        if chain.Waiting? then Waiting([Offers(s.token)] + chain.ops)
        else if chain.Ended? then Ended([Offers(s.token)] + chain.ops, chain.rows + kept + [s'], chain.cause, chain.at)
        else After([Offers(s.token)] + chain.ops, Settle(s', chain.rows + kept, chain.next, rounds, chain.at))
  {
  }

  lemma AdmittedEnds(offer: seq<Op>, chain: Outcome, kept: seq<Custody>, s: Custody, after: seq<SettlementTurn>,
                     trace: seq<Op>, e: DriverState, phase: Phase, rounds: seq<Round>)
    requires !chain.Settled? && Simulates(chain, trace, e, phase, Keep(kept) + [Offer(s)] + after, rounds)
    ensures chain.Waiting? ==> Simulates(Waiting(offer + chain.ops), offer + trace, e, phase, after, rounds)
    ensures chain.Ended? ==>
      Simulates(Ended(offer + chain.ops, chain.rows + kept + [s], chain.cause, chain.at), offer + trace, e, phase, after, rounds)
  {
    if chain.Ended? {
      Reassociate(offer, chain.ops, Trace(e, rounds, chain.at));
      assert chain.rows + Custodies(Keep(kept) + [Offer(s)] + after) == chain.rows + kept + [s] + Custodies(after);
    }
  }

  lemma AdmittedContinues(offer: seq<Op>, chain: Outcome, e1: DriverState, again: Outcome,
                          trace: seq<Op>, e: DriverState, phase: Phase, after: seq<SettlementTurn>, rounds: seq<Round>)
    requires chain.Settled? && chain.at <= |rounds| && trace == chain.ops + Trace(e1, rounds, chain.at)
    requires Simulates(again, Trace(e1, rounds, chain.at), e, phase, after, rounds)
    ensures Simulates(After(offer + chain.ops, again), offer + trace, e, phase, after, rounds)
  {
    Reassociate(offer, chain.ops, Trace(e1, rounds, chain.at));
    SimulatesAfter(offer + chain.ops, again, Trace(e1, rounds, chain.at), e, phase, after, rounds);
  }

  lemma KeepJoin(rows: seq<Custody>, kept: seq<Custody>, s: Custody, after: seq<SettlementTurn>)
    ensures Keep(rows) + (Keep(kept) + [Offer(s)] + after) == Keep(rows + kept) + [Offer(s)] + after
  {
  }

  lemma AdmittedTurn(d: DriverState, kept: seq<Custody>, s: Custody, after: seq<SettlementTurn>, rounds: seq<Round>, at: nat)
    returns (d1: DriverState)
    requires AllConserving(rounds) && at < |rounds| && rounds[at].offer.received.value.SourceAdmitted?
    requires Quiet(d) && d.settlements == Keep(kept) + [Offer(s)] + after
    ensures var s' := Custody(rounds[at].offer.received.value.settlement, s.turn);
      && d1.received == d.received && d1.phase == d.phase
      && Trace(d, rounds, at) == [Offers(s.token)] + Trace(d1, rounds, at + 1)
      && (at + 1 < |rounds| ==> Asks(d1, d1.(settlements := Keep(kept) + [Offer(s')] + after), true, rounds[at + 1]))
  {
    OfferTurn(d, kept, s, after, rounds[at]);
    TraceStep(d, rounds, at);
    d1 := Step(d, rounds[at]).driver;
    if at + 1 < |rounds| {
      ControlAsks(d1, kept, Custody(rounds[at].offer.received.value.settlement, s.turn), after, rounds[at + 1]);
    }
  }

  lemma {:induction false} AdmittedSimulates(
    d: DriverState, kept: seq<Custody>, s: Custody, after: seq<SettlementTurn>, rounds: seq<Round>, at: nat) returns (e: DriverState)
    requires AllConserving(rounds) && at < |rounds| && rounds[at].offer.received.value.SourceAdmitted?
    requires Quiet(d) && d.settlements == Keep(kept) + [Offer(s)] + after
    ensures Simulates(Settle(s, kept, d.received, rounds, at), Trace(d, rounds, at), e, d.phase, after, rounds)
    decreases |rounds| - at, 0
  {
    var s' := Custody(rounds[at].offer.received.value.settlement, s.turn);
    var d1 := AdmittedTurn(d, kept, s, after, rounds, at);
    SettleAdmitted(s, kept, d.received, rounds, at);
    e := ReactSimulates(d1, d1.(settlements := Keep(kept) + [Offer(s')] + after), true, rounds, at + 1);
    var chain := React(true, d.received, rounds, at + 1);
    var offer := [Offers(s.token)];
    if chain.Settled? {
      var e1 := e;
      KeepJoin(chain.rows, kept, s', after);
      e := SettleSimulates(e1, chain.rows + kept, s', after, rounds, chain.at);
      AdmittedContinues(offer, chain, e1, Settle(s', chain.rows + kept, chain.next, rounds, chain.at),
                        Trace(d1, rounds, at + 1), e, d.phase, after, rounds);
    } else {
      AdmittedEnds(offer, chain, kept, s', after, Trace(d1, rounds, at + 1), e, d.phase, rounds);
    }
  }

  lemma ReactEnds(d: DriverState, d1: DriverState, control: bool, rounds: seq<Round>, at: nat)
    requires AllConserving(rounds) && at < |rounds| && Asks(d, d1, control, rounds[at])
    requires !(rounds[at].ingress.end.reply.Proceed? && rounds[at].ingress.end.reply.event.Some? && rounds[at].fold.Decided?)
    ensures Simulates(React(control, d.received, rounds, at), Trace(d, rounds, at), Step(d, rounds[at]).driver,
                      d.phase, d1.settlements, rounds)
  {
    TraceStep(d, rounds, at);
    var r := rounds[at];
    if r.ingress.end.reply.Proceed? && r.ingress.end.reply.event.Some? {
      RequestFails(d, d1, control, r.ingress.end.reply.event.value, r);
    } else {
      RequestEnds(d, d1, control, r);
    }
  }

  lemma {:induction false} ReactSimulates(d: DriverState, d1: DriverState, control: bool, rounds: seq<Round>, at: nat) returns (e: DriverState)
    requires AllConserving(rounds) && at <= |rounds|
    requires at < |rounds| ==> Asks(d, d1, control, rounds[at])
    ensures Simulates(React(control, d.received, rounds, at), Trace(d, rounds, at), e, d.phase, d1.settlements, rounds)
    decreases |rounds| - at, 0
  {
    e := d;
    if at < |rounds| {
      var r := rounds[at];
      var e1 := Step(d, r).driver;
      if r.ingress.end.reply.Proceed? && r.ingress.end.reply.event.Some? && r.fold.Decided? {
        var event := r.ingress.end.reply.event.value;
        TraceStep(d, rounds, at);
        RequestDecides(d, d1, control, event, r);
        e := EnterSimulates(e1, r.apply.interpretation.value, r.fold.decision, rounds, at + 1);
        SimulatesAfter(Asking(control) + [Folds(event), Applies(r.fold.actions)],
                       Enter(r.apply.interpretation.value, r.fold.decision, false, d.received, rounds, at + 1),
                       Trace(e1, rounds, at + 1), e, d.phase, d1.settlements, rounds);
      } else {
        ReactEnds(d, d1, control, rounds, at);
        e := e1;
      }
    }
  }

  lemma EnterThatEnds(d: DriverState, token: Token, decision: Decision, rounds: seq<Round>, at: nat) returns (e: DriverState)
    requires AllConserving(rounds) && at < |rounds|
    requires Inv(d) && Calm(d) && Running(d) && d.interpretation == Some(token) && d.decision == Some(decision)
    requires StatusCauses(d.phase.Initializing?, Some(decision), rounds[at].status) != []
    ensures Simulates(Enter(token, decision, d.phase.Initializing?, d.received, rounds, at), Trace(d, rounds, at), e,
                      if d.phase.Initializing? then SettlingInitialization else d.phase, d.settlements, rounds)
  {
    EnterEnds(d, token, decision, rounds[at]);
    TraceStep(d, rounds, at);
    e := Step(d, rounds[at]).driver;
  }

  lemma {:induction false} EnterThatContinues(d: DriverState, token: Token, decision: Decision, rounds: seq<Round>, at: nat)
    returns (e: DriverState)
    requires AllConserving(rounds) && at < |rounds|
    requires Inv(d) && Calm(d) && Running(d) && d.interpretation == Some(token) && d.decision == Some(decision)
    requires StatusCauses(d.phase.Initializing?, Some(decision), rounds[at].status) == []
    ensures Simulates(Enter(token, decision, d.phase.Initializing?, d.received, rounds, at), Trace(d, rounds, at), e,
                      if d.phase.Initializing? then SettlingInitialization else d.phase, d.settlements, rounds)
    decreases |rounds| - at, 2
  {
    var d1 := EnterContinues(d, token, decision, rounds, at);
    assert Keep([]) + [Offer(Custody(token, d.received))] + d.settlements == [Offer(Custody(token, d.received))] + d.settlements;
    e := SettleSimulates(d1, [], Custody(token, d.received), d.settlements, rounds, at);
  }

  lemma {:induction false} EnterSimulates(d: DriverState, token: Token, decision: Decision, rounds: seq<Round>, at: nat) returns (e: DriverState)
    requires AllConserving(rounds) && at <= |rounds|
    requires Inv(d) && Calm(d) && Running(d) && d.interpretation == Some(token) && d.decision == Some(decision)
    ensures Simulates(Enter(token, decision, d.phase.Initializing?, d.received, rounds, at), Trace(d, rounds, at), e,
                      if d.phase.Initializing? then SettlingInitialization else d.phase, d.settlements, rounds)
    decreases |rounds| - at, 3
  {
    e := d;
    if at < |rounds| {
      if StatusCauses(d.phase.Initializing?, Some(decision), rounds[at].status) == [] {
        e := EnterThatContinues(d, token, decision, rounds, at);
      } else {
        e := EnterThatEnds(d, token, decision, rounds, at);
      }
    }
  }

  // ---------------------------------------------------------- whole executions

  lemma {:induction false} AttemptedIsSilent(d: DriverState, rounds: seq<Round>, at: nat)
    requires at <= |rounds| && (d.phase.RetirementAttempted? || (Inv(d) && d.phase.Retiring? && HoldsRefusal(d)))
    ensures Trace(d, rounds, at) == []
    decreases |rounds| - at
  {
    if at < |rounds| {
      TraceStep(d, rounds, at);
      assert d.phase.Retiring? ==> GatherSettlements(d) == d;
      AttemptedIsSilent(d, rounds, at + 1);
    }
  }

  /** A finished run retires its active owner with all rows, and is then over. */
  lemma CloseTurn(d: DriverState, rows: seq<Custody>, cause: Cause, r: Round)
    requires Finished(d, rows, cause)
    ensures Ops(Step(d, r).events) == [RetiresActive(rows)] && Step(d, r).driver.phase.RetirementAttempted?
  {
    var p := Step(d, r);
    assert p.events == Retire(d, r).events && |p.events| == 1;
    OpsOne(p.events[0]);
  }

  lemma CloseSimulates(d: DriverState, rows: seq<Custody>, cause: Cause, rounds: seq<Round>, at: nat)
    requires AllConserving(rounds) && at <= |rounds| && Finished(d, rows, cause)
    ensures Trace(d, rounds, at) == Close(rows, rounds, at)
  {
    if at < |rounds| {
      CloseTurn(d, rows, cause, rounds[at]);
      TraceStep(d, rounds, at);
      AttemptedIsSilent(Step(d, rounds[at]).driver, rounds, at + 1);
    }
  }

  lemma RetainedKeep(rows: seq<Custody>, kept: seq<Custody>)
    ensures Keep(rows) + Keep(kept) == Keep(rows + kept) && AllRetained(Keep(rows + kept))
    ensures rows + Custodies(Keep(kept)) == rows + kept
  {
  }

  lemma {:induction false} ServeSimulates(d: DriverState, kept: seq<Custody>, rounds: seq<Round>, at: nat)
    requires AllConserving(rounds) && at <= |rounds|
    requires Quiet(d) && d.phase.Active? && d.settlements == Keep(kept)
    ensures Trace(d, rounds, at) == Serve(kept, d.received, rounds, at)
    decreases |rounds| - at
  {
    if at < |rounds| {
      OrdinaryAsks(d, rounds[at]);
    }
    var e := ReactSimulates(d, d, false, rounds, at);
    var o := React(false, d.received, rounds, at);
    if o.Settled? {
      RetainedKeep(o.rows, kept);
      ServeSimulates(e, o.rows + kept, rounds, o.at);
    } else if o.Ended? {
      RetainedKeep(o.rows, kept);
      CloseSimulates(e, o.rows + kept, o.cause, rounds, o.at);
    }
  }

  /** The turn of a settled initialization publishes. */
  lemma AnnounceTurn(d: DriverState, kept: seq<Custody>, r: Round) returns (e: DriverState)
    requires Quiet(d) && d.phase.SettlingInitialization? && d.settlements == Keep(kept) && Uninterrupted(r)
    ensures Step(d, r) == Progress(e, [PublishCalled(r.publish)])
    ensures r.publish.Published? ==> Quiet(e) && e.phase.Active? && e.settlements == d.settlements && e.received == d.received
    ensures !r.publish.Published? ==> e.disposition.Some? && Finished(e, kept, e.disposition.value)
  {
    RetainedKeep(kept, []);
    assert NextRow(d.settlements).None?;
    QuietStep(d, r);
    assert Step(d, r) == Publish(d, r);
    e := Publish(d, r).driver;
    StepKeepsInv(d, r);
    StepStaysCalm(d, r);
  }

  lemma AnnounceSimulates(d: DriverState, kept: seq<Custody>, rounds: seq<Round>, at: nat)
    requires AllConserving(rounds) && at <= |rounds|
    requires Quiet(d) && d.phase.SettlingInitialization? && d.settlements == Keep(kept)
    ensures Trace(d, rounds, at) == Announce(kept, d.received, rounds, at)
  {
    if at < |rounds| {
      var e := AnnounceTurn(d, kept, rounds[at]);
      TraceStep(d, rounds, at);
      OpsOne(PublishCalled(rounds[at].publish));
      if rounds[at].publish.Published? {
        ServeSimulates(e, kept, rounds, at + 1);
      } else {
        CloseSimulates(e, kept, e.disposition.value, rounds, at + 1);
      }
    }
  }

  lemma EstablishSimulates(d: DriverState, token: Token, decision: Decision, rounds: seq<Round>, at: nat)
    requires AllConserving(rounds) && at <= |rounds|
    requires Inv(d) && Calm(d) && d.phase.Initializing? && d.received == 0
    requires d.interpretation == Some(token) && d.decision == Some(decision)
    ensures Trace(d, rounds, at) == Establish(token, decision, rounds, at)
  {
    var e := EnterSimulates(d, token, decision, rounds, at);
    var o := Enter(token, decision, true, 0, rounds, at);
    if o.Settled? {
      assert Keep(o.rows) + [] == Keep(o.rows);
      AnnounceSimulates(e, o.rows, rounds, o.at);
    } else if o.Ended? {
      assert o.rows + Custodies([]) == o.rows;
      CloseSimulates(e, o.rows, o.cause, rounds, o.at);
    }
  }

  /** For a conserving host, the loop makes exactly the calls of the recursive interpreter,
      in the same order, whatever the Behavior decides and whatever the sources answer. */
  lemma LoopRefinesInterpreter(behavior: Token, environment: Token, rounds: seq<Round>)
    requires AllConserving(rounds)
    ensures Ops(Run(New(behavior, environment), rounds).events) == Execute(rounds)
  {
    assert rounds[0..] == rounds;
    if rounds != [] {
      var d := InitializeTurn(behavior, environment, rounds);
      if |rounds| > 1 {
        if rounds[0].fold.Decided? {
          ActivateSimulates(d, rounds);
        } else {
          RefusedInitialization(d, rounds);
        }
      }
    }
  }

  lemma InitializeTurn(behavior: Token, environment: Token, rounds: seq<Round>) returns (d: DriverState)
    requires rounds != []
    ensures Trace(New(behavior, environment), rounds, 0) == [Initializes] + Trace(d, rounds, 1)
    ensures Inv(d) && d.received == 0
    ensures if rounds[0].fold.Decided?
      then d.phase.Activating? && d.actions == Some(rounds[0].fold.actions) && d.decision == Some(rounds[0].fold.decision)
      else d.phase.Retiring? && HoldsPrepared(d)
  {
    TraceStep(New(behavior, environment), rounds, 0);
    OpsOne(Initialized(rounds[0].fold));
    d := Step(New(behavior, environment), rounds[0]).driver;
    StepKeepsInv(New(behavior, environment), rounds[0]);
  }

  lemma RefusedInitialization(d: DriverState, rounds: seq<Round>)
    requires AllConserving(rounds) && |rounds| > 1
    requires Inv(d) && d.phase.Retiring? && HoldsPrepared(d)
    ensures Trace(d, rounds, 1) == [RetiresPrepared]
  {
    var e := PreparedTurn(d, rounds[1]);
    TraceStep(d, rounds, 1);
    AttemptedIsSilent(e, rounds, 2);
  }

  lemma PreparedTurn(d: DriverState, r: Round) returns (e: DriverState)
    requires d.phase.Retiring? && HoldsPrepared(d)
    ensures e == Step(d, r).driver && e.phase.RetirementAttempted? && Ops(Step(d, r).events) == [RetiresPrepared]
  {
    e := Step(d, r).driver;
    OpsOne(Step(d, r).events[0]);
  }

  lemma ActivateSimulates(d: DriverState, rounds: seq<Round>)
    requires AllConserving(rounds) && |rounds| > 1
    requires Inv(d) && d.phase.Activating? && d.actions.Some? && d.received == 0
    ensures Trace(d, rounds, 1) == [Activates(d.actions.value)] +
      if rounds[1].activate.activation.value.Refused? then []
      else Establish(rounds[1].activate.activation.value.interpretation, d.decision.value, rounds, 2)
  {
    var p := Step(d, rounds[1]);
    TraceStep(d, rounds, 1);
    StepKeepsInv(d, rounds[1]);
    OpsOne(p.events[0]);
    if rounds[1].activate.activation.value.Refused? {
      AttemptedIsSilent(p.driver, rounds, 2);
    } else {
      EstablishSimulates(p.driver, rounds[1].activate.activation.value.interpretation, d.decision.value, rounds, 2);
    }
  }
}
